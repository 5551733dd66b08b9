module DisplayNames {
  // The display name given to a restored row: the stored name, or the first
  // "name (n)" that no active sibling uses. The search has no bound of its own; it
  // ends because the numbered candidates are pairwise different.

  /** `strconv.Itoa` on a natural number. */
  function Itoa(n: nat): (s: string)
    ensures s != []
  {
    var digit := ['0' + (n % 10) as char];
    if n < 10 then digit else Itoa(n / 10) + digit
  }

  function Candidate(base: string, suffix: nat): string {
    base + " (" + Itoa(suffix) + ")"
  }

  lemma {:induction false} ItoaInjective(m: nat, n: nat)
    requires Itoa(m) == Itoa(n)
    ensures m == n
  {
    var a, b := Itoa(m), Itoa(n);
    assert a[|a| - 1] == '0' + (m % 10) as char && b[|b| - 1] == '0' + (n % 10) as char;
    assert m % 10 == n % 10;
    if m >= 10 && n >= 10 {
      assert a[..|a| - 1] == Itoa(m / 10) && b[..|b| - 1] == Itoa(n / 10);
      ItoaInjective(m / 10, n / 10);
    }
  }

  lemma CandidateInjective(base: string, m: nat, n: nat)
    requires Candidate(base, m) == Candidate(base, n)
    ensures m == n
  {
    var head := base + " (";
    assert Candidate(base, m)[|head|..] == Itoa(m) + ")";
    assert Candidate(base, n)[|head|..] == Itoa(n) + ")";
    assert (Itoa(m) + ")")[..|Itoa(m)|] == Itoa(m);
    ItoaInjective(m, n);
  }

  /** The used names not yet ruled out when the search reaches `suffix`. */
  ghost function Untried(base: string, used: set<string>, suffix: nat): set<string> {
    set name | name in used && (forall k: nat {:trigger Candidate(base, k)} :: k < suffix ==> name != Candidate(base, k))
  }

  lemma UntriedShrinks(base: string, used: set<string>, suffix: nat)
    requires Candidate(base, suffix) in used
    ensures Untried(base, used, suffix + 1) < Untried(base, used, suffix)
  {
    var name := Candidate(base, suffix);
    forall k: nat | k < suffix ensures name != Candidate(base, k) {
      if name == Candidate(base, k) { CandidateInjective(base, suffix, k); }
    }
    assert name in Untried(base, used, suffix) && name !in Untried(base, used, suffix + 1);
  }

  /** `name` is candidate `k`, and every candidate from `suffix` up to `k` is taken. */
  ghost predicate FirstAt(base: string, used: set<string>, suffix: nat, k: nat, name: string) {
    && name == Candidate(base, k)
    && (forall i: nat {:trigger Candidate(base, i)} :: suffix <= i < k ==> Candidate(base, i) in used)
  }

  /** The first free numbered candidate at or after `suffix`. */
  function FirstFree(base: string, used: set<string>, suffix: nat): (name: string)
    ensures name !in used
    ensures exists k: nat :: suffix <= k && FirstAt(base, used, suffix, k, name)
    decreases Untried(base, used, suffix)
  {
    if Candidate(base, suffix) !in used then
      assert FirstAt(base, used, suffix, suffix, Candidate(base, suffix));
      Candidate(base, suffix)
    else
      UntriedShrinks(base, used, suffix);
      var name := FirstFree(base, used, suffix + 1);
      assert exists k: nat :: suffix <= k && FirstAt(base, used, suffix, k, name) by {
        var k: nat :| suffix + 1 <= k && FirstAt(base, used, suffix + 1, k, name);
        assert FirstAt(base, used, suffix, k, name);
      }
      name
  }

  function NextAvailable(base: string, used: set<string>): (name: string)
    ensures name !in used
    ensures name == base <==> base !in used
  {
    if base !in used then base else FirstFree(base, used, 1)
  }

  /** The search loop, which stops on every input and returns the specified name. */
  method NextAvailableDisplayValue(base: string, used: set<string>) returns (name: string)
    ensures name == NextAvailable(base, used)
  {
    if base !in used { return base; }
    var suffix := 1;
    while Candidate(base, suffix) in used
      invariant FirstFree(base, used, suffix) == FirstFree(base, used, 1)
      decreases Untried(base, used, suffix)
    {
      UntriedShrinks(base, used, suffix);
      suffix := suffix + 1;
    }
    name := Candidate(base, suffix);
  }
}
