/**
 * The double-entry ledger of `App\Ledger\Ledger`, as an in-memory store: a
 * table of accounts (name to type, first write wins) and append-only
 * sequences of journals and postings. A journal's id is its position in
 * `journals`; a posting points at its journal by that id.
 */
module Ledger {
  import opened Outcomes

  datatype AccountType = Asset | Liability | Revenue | Expense | Equity

  /** The direction of a line: 'D', 'C', or any other tag, which `post` still writes. */
  datatype Dir = Debit | Credit | OtherDir(tag: string)

  /** One line handed to `post`. */
  datatype Line = Line(account: string, dc: Dir, amount: int)

  datatype Journal = Journal(refType: string, refId: string, memo: string)

  datatype Posting = Posting(journal: nat, account: string, dc: Dir, amount: int)

  datatype PostError = NonPositiveAmount | UnbalancedJournal

  // ----- sums over lines and postings -----

  /** What a line contributes to the `dc` total of `account` (of every account when `account` is None). */
  function LineWeight(l: Line, account: Option<string>, dc: Dir): int {
    if l.dc == dc && (account.None? || account.value == l.account) then l.amount else 0
  }

  function LineSum(lines: seq<Line>, account: Option<string>, dc: Dir): int {
    if lines == [] then 0
    else LineSum(lines[..|lines| - 1], account, dc) + LineWeight(lines[|lines| - 1], account, dc)
  }

  function Weight(p: Posting, account: Option<string>, dc: Dir): int {
    if p.dc == dc && (account.None? || account.value == p.account) then p.amount else 0
  }

  function Sum(ps: seq<Posting>, account: Option<string>, dc: Dir): int {
    if ps == [] then 0
    else Sum(ps[..|ps| - 1], account, dc) + Weight(ps[|ps| - 1], account, dc)
  }

  predicate AllPositive(lines: seq<Line>) {
    forall i :: 0 <= i < |lines| ==> lines[i].amount > 0
  }

  /** Total debits equal total credits. */
  predicate Balanced(lines: seq<Line>) {
    LineSum(lines, None, Debit) == LineSum(lines, None, Credit)
  }

  /** What `post` accepts. */
  predicate Postable(lines: seq<Line>) {
    AllPositive(lines) && Balanced(lines)
  }

  /** The postings `post` writes for `lines` under journal `j`, one per line, in order. */
  function PostingsOf(j: nat, lines: seq<Line>): (ps: seq<Posting>)
    ensures |ps| == |lines|
    ensures forall i :: 0 <= i < |lines| ==>
              ps[i] == Posting(j, lines[i].account, lines[i].dc, lines[i].amount)
  {
    seq(|lines|, i requires 0 <= i < |lines| => Posting(j, lines[i].account, lines[i].dc, lines[i].amount))
  }

  /** Signed balance of an account: ASSET and EXPENSE count debits up, the others count credits up; 0 for an account not in the table. */
  function BalanceIn(accounts: map<string, AccountType>, ps: seq<Posting>, account: string): int {
    if account !in accounts then 0
    else
      var d := Sum(ps, Some(account), Debit);
      var c := Sum(ps, Some(account), Credit);
      if accounts[account] == Asset || accounts[account] == Expense then d - c else c - d
  }

  /** How much a journal of `lines` changes the balance of `account`. */
  function LinesEffect(accounts: map<string, AccountType>, lines: seq<Line>, account: string): int {
    if account !in accounts then 0
    else
      var d := LineSum(lines, Some(account), Debit);
      var c := LineSum(lines, Some(account), Credit);
      if accounts[account] == Asset || accounts[account] == Expense then d - c else c - d
  }

  /** The account table after `INSERT OR IGNORE` of `account` with `kind`. */
  function Ensured(accounts: map<string, AccountType>, account: string, kind: AccountType): map<string, AccountType> {
    if account in accounts then accounts else accounts[account := kind]
  }

  /** The first type given to an account is kept: ensuring again, with any type, changes nothing, and no other account is touched. */
  lemma EnsuredFirstWriteWins(accounts: map<string, AccountType>, account: string, first: AccountType, second: AccountType)
    ensures Ensured(Ensured(accounts, account, first), account, second) == Ensured(accounts, account, first)
    ensures Ensured(accounts, account, first)[account] == (if account in accounts then accounts[account] else first)
    ensures forall a :: a in accounts ==> a in Ensured(accounts, account, first) && Ensured(accounts, account, first)[a] == accounts[a]
  {
  }

  /** The invariant of the posting table: positive amounts, known journals, and debits equal to credits overall. */
  ghost predicate StoreValid(journals: seq<Journal>, ps: seq<Posting>) {
    && (forall i :: 0 <= i < |ps| ==> ps[i].amount > 0 && ps[i].journal < |journals|)
    && Sum(ps, None, Debit) == Sum(ps, None, Credit)
  }

  // ----- lemmas about the sums -----

  /** Sums distribute over concatenation. */
  lemma {:induction false} SumAppend(a: seq<Posting>, b: seq<Posting>, account: Option<string>, dc: Dir)
    ensures Sum(a + b, account, dc) == Sum(a, account, dc) + Sum(b, account, dc)
    decreases |b|
  {
    if b == [] {
      assert a + b == a;
    } else {
      var b' := b[..|b| - 1];
      assert (a + b)[..|a + b| - 1] == a + b';
      SumAppend(a, b', account, dc);
    }
  }

  /** Line totals distribute over concatenation. */
  lemma {:induction false} LineSumAppend(a: seq<Line>, b: seq<Line>, account: Option<string>, dc: Dir)
    ensures LineSum(a + b, account, dc) == LineSum(a, account, dc) + LineSum(b, account, dc)
    decreases |b|
  {
    if b == [] {
      assert a + b == a;
    } else {
      var b' := b[..|b| - 1];
      assert (a + b)[..|a + b| - 1] == a + b';
      LineSumAppend(a, b', account, dc);
    }
  }

  /** The postings written for `lines` sum exactly as the lines do. */
  lemma {:induction false} SumPostingsOf(j: nat, lines: seq<Line>, account: Option<string>, dc: Dir)
    ensures Sum(PostingsOf(j, lines), account, dc) == LineSum(lines, account, dc)
    decreases |lines|
  {
    if lines != [] {
      var init := lines[..|lines| - 1];
      assert PostingsOf(j, lines)[..|lines| - 1] == PostingsOf(j, init);
      SumPostingsOf(j, init, account, dc);
    }
  }

  /** Appending an accepted journal keeps the posting table valid. */
  lemma AppendKeepsStoreValid(journals: seq<Journal>, ps: seq<Posting>, journal: Journal, lines: seq<Line>)
    requires StoreValid(journals, ps)
    requires Postable(lines)
    ensures StoreValid(journals + [journal], ps + PostingsOf(|journals|, lines))
  {
    AppendKeepsBalance(ps, |journals|, lines);
    var ps' := ps + PostingsOf(|journals|, lines);
    forall i | 0 <= i < |ps'|
      ensures ps'[i].amount > 0 && ps'[i].journal < |journals| + 1
    {
      if i >= |ps| {
        assert ps'[i] == PostingsOf(|journals|, lines)[i - |ps|];
      }
    }
  }

  /** Appending a balanced journal to a balanced posting table leaves it balanced. */
  lemma AppendKeepsBalance(ps: seq<Posting>, j: nat, lines: seq<Line>)
    requires Sum(ps, None, Debit) == Sum(ps, None, Credit)
    requires Balanced(lines)
    ensures Sum(ps + PostingsOf(j, lines), None, Debit) == Sum(ps + PostingsOf(j, lines), None, Credit)
  {
    SumAppend(ps, PostingsOf(j, lines), None, Debit);
    SumAppend(ps, PostingsOf(j, lines), None, Credit);
    SumPostingsOf(j, lines, None, Debit);
    SumPostingsOf(j, lines, None, Credit);
  }

  /** Posting a journal changes an account's balance by exactly that journal's effect on it. */
  lemma BalanceAfterPost(accounts: map<string, AccountType>, ps: seq<Posting>, j: nat, lines: seq<Line>, account: string)
    ensures BalanceIn(accounts, ps + PostingsOf(j, lines), account)
         == BalanceIn(accounts, ps, account) + LinesEffect(accounts, lines, account)
  {
    SumAppend(ps, PostingsOf(j, lines), Some(account), Debit);
    SumAppend(ps, PostingsOf(j, lines), Some(account), Credit);
    SumPostingsOf(j, lines, Some(account), Debit);
    SumPostingsOf(j, lines, Some(account), Credit);
  }

  /** The sign a line of direction `dc` gives `amount` in the balance of `account`: plus on the account's normal side, minus on the other. */
  function Signed(accounts: map<string, AccountType>, account: string, dc: Dir, amount: int): int {
    if account !in accounts then 0
    else if (accounts[account] == Asset || accounts[account] == Expense) == (dc == Debit) then amount
    else -amount
  }

  /**
   * Posting "debit `from`, credit `to`" moves `amount` between the two
   * accounts and leaves every other balance as it was.
   */
  lemma MoveBalances(accounts: map<string, AccountType>, ps: seq<Posting>, j: nat, from: string, to: string, amount: int)
    requires from != to
    ensures var after := ps + PostingsOf(j, [Line(from, Debit, amount), Line(to, Credit, amount)]);
      && BalanceIn(accounts, after, from) == BalanceIn(accounts, ps, from) + Signed(accounts, from, Debit, amount)
      && BalanceIn(accounts, after, to) == BalanceIn(accounts, ps, to) + Signed(accounts, to, Credit, amount)
      && forall a :: a != from && a != to ==> BalanceIn(accounts, after, a) == BalanceIn(accounts, ps, a)
  {
    var lines := [Line(from, Debit, amount), Line(to, Credit, amount)];
    TransferLines(from, to, amount);
    BalanceAfterPost(accounts, ps, j, lines, from);
    BalanceAfterPost(accounts, ps, j, lines, to);
    forall a | a != from && a != to
      ensures BalanceIn(accounts, ps + PostingsOf(j, lines), a) == BalanceIn(accounts, ps, a)
    {
      BalanceAfterPost(accounts, ps, j, lines, a);
    }
  }

  /** An account with no postings, or none in the table, has balance 0. */
  lemma {:induction false} BalanceWithoutPostings(accounts: map<string, AccountType>, ps: seq<Posting>, account: string)
    requires forall i :: 0 <= i < |ps| ==> ps[i].account != account
    ensures BalanceIn(accounts, ps, account) == 0
  {
    NoPostingsSumZero(ps, account, Debit);
    NoPostingsSumZero(ps, account, Credit);
  }

  lemma {:induction false} NoPostingsSumZero(ps: seq<Posting>, account: string, dc: Dir)
    requires forall i :: 0 <= i < |ps| ==> ps[i].account != account
    ensures Sum(ps, Some(account), dc) == 0
    decreases |ps|
  {
    if ps != [] {
      NoPostingsSumZero(ps[..|ps| - 1], account, dc);
    }
  }

  /** The sums of a two-line journal, written out. */
  lemma LineSumOfTwo(a: Line, b: Line, account: Option<string>, dc: Dir)
    ensures LineSum([a, b], account, dc) == LineWeight(a, account, dc) + LineWeight(b, account, dc)
  {
    assert [a, b][..1] == [a];
    assert [a][..0] == [];
    assert LineSum([a], account, dc) == LineWeight(a, account, dc);
  }

  /** The sums of a three-line journal, written out. */
  lemma LineSumOfThree(a: Line, b: Line, c: Line, account: Option<string>, dc: Dir)
    ensures LineSum([a, b, c], account, dc) == LineWeight(a, account, dc) + LineWeight(b, account, dc) + LineWeight(c, account, dc)
  {
    assert [a, b, c][..2] == [a, b];
    LineSumOfTwo(a, b, account, dc);
  }

  /** The two-line journal "debit `from`, credit `to`, both `amount`" is accepted exactly when the amount is positive, and moves that amount. */
  lemma TransferLines(from: string, to: string, amount: int)
    ensures var lines := [Line(from, Debit, amount), Line(to, Credit, amount)];
      && (Postable(lines) <==> amount > 0)
      && (forall a :: LineSum(lines, Some(a), Debit) == (if a == from then amount else 0))
      && (forall a :: LineSum(lines, Some(a), Credit) == (if a == to then amount else 0))
  {
    var lines := [Line(from, Debit, amount), Line(to, Credit, amount)];
    LineSumOfTwo(lines[0], lines[1], None, Debit);
    LineSumOfTwo(lines[0], lines[1], None, Credit);
    forall a: string
      ensures LineSum(lines, Some(a), Debit) == (if a == from then amount else 0)
      ensures LineSum(lines, Some(a), Credit) == (if a == to then amount else 0)
    {
      LineSumOfTwo(lines[0], lines[1], Some(a), Debit);
      LineSumOfTwo(lines[0], lines[1], Some(a), Credit);
    }
  }

  /** Lines in neither direction count towards neither total, so they never unbalance a journal. */
  lemma OtherDirectionIgnored(lines: seq<Line>, extra: Line)
    requires extra.dc.OtherDir?
    ensures LineSum(lines + [extra], None, Debit) == LineSum(lines, None, Debit)
    ensures LineSum(lines + [extra], None, Credit) == LineSum(lines, None, Credit)
  {
    assert (lines + [extra])[..|lines|] == lines;
  }

  // ----- the store -----

  class Ledger {
    var accounts: map<string, AccountType>
    var journals: seq<Journal>
    var postings: seq<Posting>

    ghost predicate Valid()
      reads this`journals, this`postings
    {
      StoreValid(journals, postings)
    }

    constructor ()
      ensures Valid()
      ensures accounts == map[] && journals == [] && postings == []
    {
      accounts := map[];
      journals := [];
      postings := [];
    }

    /** Insert-or-ignore: a second call, even with another type, changes nothing. */
    method EnsureAccount(account: string, kind: AccountType)
      modifies this`accounts
      ensures accounts == Ensured(old(accounts), account, kind)
    {
      if account !in accounts {
        accounts := accounts[account := kind];
      }
    }

    /** The signed balance of `account`. */
    function Balance(account: string): int
      reads this
    {
      BalanceIn(accounts, postings, account)
    }

    /**
     * Validates every line (positive amount), totals debits and credits,
     * rejects an unbalanced journal, and otherwise appends one journal and
     * one posting per line. Nothing is written when it rejects.
     */
    method Post(refType: string, refId: string, memo: string, lines: seq<Line>) returns (r: Result<nat, PostError>)
      requires Valid()
      modifies this`journals, this`postings
      ensures Valid()
      ensures !AllPositive(lines) ==> r == Err(NonPositiveAmount)
      ensures AllPositive(lines) && !Balanced(lines) ==> r == Err(UnbalancedJournal)
      ensures r.Err? ==> journals == old(journals) && postings == old(postings)
      ensures Postable(lines) ==>
                && r == Ok(|old(journals)|)
                && journals == old(journals) + [Journal(refType, refId, memo)]
                && postings == old(postings) + PostingsOf(|old(journals)|, lines)
    {
      var debits, credits := 0, 0;
      for i := 0 to |lines|
        invariant journals == old(journals) && postings == old(postings)
        invariant AllPositive(lines[..i])
        invariant debits == LineSum(lines[..i], None, Debit)
        invariant credits == LineSum(lines[..i], None, Credit)
      {
        var l := lines[i];
        assert lines[..i + 1][..i] == lines[..i];
        if l.amount <= 0 {
          return Err(NonPositiveAmount);
        }
        if l.dc == Debit {
          debits := debits + l.amount;
        }
        if l.dc == Credit {
          credits := credits + l.amount;
        }
      }
      assert lines[..|lines|] == lines;
      if debits != credits {
        return Err(UnbalancedJournal);
      }

      var jid := |journals|;
      journals := journals + [Journal(refType, refId, memo)];
      for k := 0 to |lines|
        invariant journals == old(journals) + [Journal(refType, refId, memo)]
        invariant postings == old(postings) + PostingsOf(jid, lines[..k])
      {
        assert PostingsOf(jid, lines[..k + 1]) == PostingsOf(jid, lines[..k]) + [Posting(jid, lines[k].account, lines[k].dc, lines[k].amount)];
        postings := postings + [Posting(jid, lines[k].account, lines[k].dc, lines[k].amount)];
      }
      assert lines[..|lines|] == lines;
      AppendKeepsStoreValid(old(journals), old(postings), Journal(refType, refId, memo), lines);
      r := Ok(jid);
    }
  }

  /**
   * The two ledger tests: on a fresh ledger a balanced debit and credit of 100
   * are accepted and raise the ASSET and the LIABILITY balance by 100 each; on
   * another fresh ledger a debit of 100 against a credit of 99 is refused.
   */
  method BalancedPairExample() returns (posted: Result<nat, PostError>, cash: int, funds: int, refused: Result<nat, PostError>)
    ensures posted.Ok? && cash == 100 && funds == 100
    ensures refused == Err(UnbalancedJournal)
  {
    var ledger := new Ledger();
    ledger.EnsureAccount("cash", Asset);
    ledger.EnsureAccount("customer_funds", Liability);
    var lines := [Line("cash", Debit, 100), Line("customer_funds", Credit, 100)];
    TransferLines("cash", "customer_funds", 100);
    posted := ledger.Post("test", "ref1", "balanced", lines);
    BalanceAfterPost(ledger.accounts, [], 0, lines, "cash");
    BalanceAfterPost(ledger.accounts, [], 0, lines, "customer_funds");
    cash, funds := ledger.Balance("cash"), ledger.Balance("customer_funds");

    var other := new Ledger();
    other.EnsureAccount("cash", Asset);
    other.EnsureAccount("customer_funds", Liability);
    LineSumOfTwo(Line("cash", Debit, 100), Line("customer_funds", Credit, 99), None, Debit);
    LineSumOfTwo(Line("cash", Debit, 100), Line("customer_funds", Credit, 99), None, Credit);
    refused := other.Post("test", "ref2", "unbalanced", [Line("cash", Debit, 100), Line("customer_funds", Credit, 99)]);
  }
}
