// Allocating the id of an imported account, and inserting it without
// replacing anything.
module GeneratedIds {
  import opened Wrappers

  datatype Account = Account(id: string, data: string)

  // ---- Decimal numbers ----

  function Digit(n: nat): char
    requires n < 10
  {
    "0123456789"[n]
  }

  function Decimal(n: nat): string {
    if n < 10 then [Digit(n)] else Decimal(n / 10) + [Digit(n % 10)]
  }

  function DigitValue(c: char): nat {
    if '0' <= c <= '9' then (c as int) - ('0' as int) else 0
  }

  function Parsed(s: string): nat {
    if s == [] then 0 else 10 * Parsed(s[..|s| - 1]) + DigitValue(s[|s| - 1])
  }

  lemma {:induction false} DecimalRoundTrip(n: nat)
    ensures Parsed(Decimal(n)) == n
  {
    assert forall d :: 0 <= d < 10 ==> DigitValue(Digit(d)) == d;
    var s := Decimal(n);
    if n < 10 {
      assert s[..0] == [];
    } else {
      DecimalRoundTrip(n / 10);
      assert s[..|s| - 1] == Decimal(n / 10);
    }
  }

  // ---- The candidate ids ----

  // The plain base first, then the base with suffixes from 2 on.
  function Candidate(base: string, n: nat): string {
    if n == 0 then base else base + "-" + Decimal(n + 1)
  }

  lemma CandidatesDiffer(base: string, m: nat, n: nat)
    requires m != n
    ensures Candidate(base, m) != Candidate(base, n)
  {
    DecimalRoundTrip(m + 1);
    DecimalRoundTrip(n + 1);
    if m > 0 && n > 0 {
      assert Candidate(base, m)[|base| + 1..] == Decimal(m + 1);
      assert Candidate(base, n)[|base| + 1..] == Decimal(n + 1);
    }
  }

  function Candidates(base: string, n: nat): set<string> {
    set k | 0 <= k < n :: Candidate(base, k)
  }

  lemma {:induction false} CandidateCount(base: string, n: nat)
    ensures |Candidates(base, n)| == n
  {
    if n == 0 {
      assert Candidates(base, 0) == {};
    } else {
      CandidateCount(base, n - 1);
      assert Candidates(base, n) == Candidates(base, n - 1) + {Candidate(base, n - 1)};
      forall k | 0 <= k < n - 1 ensures Candidate(base, k) != Candidate(base, n - 1) {
        CandidatesDiffer(base, k, n - 1);
      }
    }
  }

  function Ids(accounts: seq<Account>): set<string> {
    set a | a in accounts :: a.id
  }

  lemma {:induction false} IdsBounded(accounts: seq<Account>)
    ensures |Ids(accounts)| <= |accounts|
  {
    if accounts != [] {
      IdsBounded(accounts[1..]);
      assert Ids(accounts) == {accounts[0].id} + Ids(accounts[1..]);
    }
  }

  lemma SubsetSize(a: set<string>, b: set<string>)
    requires a <= b
    ensures |a| <= |b|
  {
    assert b == a + (b - a);
  }

  // A store cannot hold more candidates than it has accounts.
  lemma Pigeonhole(accounts: seq<Account>, base: string, n: nat)
    requires forall k :: 0 <= k < n ==> Candidate(base, k) in Ids(accounts)
    ensures n <= |accounts|
  {
    CandidateCount(base, n);
    IdsBounded(accounts);
    SubsetSize(Candidates(base, n), Ids(accounts));
  }

  // ---- Insertion ----

  datatype Outcome = Inserted(id: string) | AlreadyExists

  class Store {
    var accounts: seq<Account>

    constructor ()
      ensures accounts == []
    {
      accounts := [];
    }

    // The first candidate nobody uses, after at most as many tries as there are accounts.
    method FreshId(base: string) returns (id: string, ghost tries: nat)
      ensures tries <= |accounts| && id == Candidate(base, tries) && id !in Ids(accounts)
      ensures forall k :: 0 <= k < tries ==> Candidate(base, k) in Ids(accounts)
    {
      id := base;
      tries := 0;
      var suffix := 2;
      while id in Ids(accounts)
        invariant suffix == tries + 2 && id == Candidate(base, tries)
        invariant forall k :: 0 <= k < tries ==> Candidate(base, k) in Ids(accounts)
        invariant tries <= |accounts|
        decreases |accounts| - tries
      {
        Pigeonhole(accounts, base, tries + 1);
        id := base + "-" + Decimal(suffix);
        tries := tries + 1;
        suffix := suffix + 1;
      }
    }

    // A generated id never collides; a chosen one is refused if it does. No
    // existing account is ever changed.
    method InsertWithId(account: Account, generated: bool, base: string) returns (r: Outcome)
      modifies this
      ensures r.AlreadyExists? <==> !generated && account.id in old(Ids(accounts))
      ensures r.AlreadyExists? ==> accounts == old(accounts)
      ensures r.Inserted? ==> r.id !in old(Ids(accounts)) && accounts == old(accounts) + [account.(id := r.id)]
      ensures r.Inserted? && !generated ==> r.id == account.id
      ensures r.Inserted? && generated ==> exists n :: IsFirstFree(old(accounts), base, n) && r.id == Candidate(base, n)
    {
      var id := account.id;
      if generated {
        ghost var tries: nat;
        id, tries := FreshId(base);
        assert IsFirstFree(accounts, base, tries);
      }
      if id in Ids(accounts) {
        return AlreadyExists;
      }
      accounts := accounts + [account.(id := id)];
      r := Inserted(id);
    }
  }

  ghost predicate IsFirstFree(accounts: seq<Account>, base: string, n: nat) {
    && n <= |accounts| && Candidate(base, n) !in Ids(accounts)
    && forall k :: 0 <= k < n ==> Candidate(base, k) in Ids(accounts)
  }

  // Distinct ids stay distinct.
  lemma DistinctKept(accounts: seq<Account>, a: Account)
    requires forall i, j :: 0 <= i < j < |accounts| ==> accounts[i].id != accounts[j].id
    requires a.id !in Ids(accounts)
    ensures var more := accounts + [a]; forall i, j :: 0 <= i < j < |more| ==> more[i].id != more[j].id
  {
    forall i | 0 <= i < |accounts| ensures accounts[i].id in Ids(accounts) {
      assert accounts[i] in accounts;
    }
  }
}
