/** The client's own pick of the thread that matters most (custom_components/codex_monitor/models.py),
    a second priority selection over the list the agent summarises. */
module CurrentThread {
  import opened Wrappers
  import opened Decimal
  import opened Model
  import opened MonitorState
  import opened MonitorTheorems

  /** A thread of the payload with its `updated_at` text. */
  datatype Listed = Listed(thread: Thread, updatedAt: string)

  /** Zero for a state that is no candidate. */
  function Priority(st: State): nat {
    match st
    case WaitingApproval => 4
    case WaitingInput => 3
    case Running => 2
    case Error => 1
    case _ => 0
  }

  /** Python's order on strings. */
  predicate Before(a: string, b: string) {
    b != "" && (a == "" || a[0] < b[0] || (a[0] == b[0] && Before(a[1..], b[1..])))
  }

  /** The sort key `(priority, updated_at)`. */
  predicate Less(a: Listed, b: Listed) {
    || Priority(a.thread.state) < Priority(b.thread.state)
    || (Priority(a.thread.state) == Priority(b.thread.state) && Before(a.updatedAt, b.updatedAt))
  }

  /** A stable sort, greatest key first, standing for `sort(reverse=True)`. */
  function Insert(x: Listed, sorted: seq<Listed>): (r: seq<Listed>)
    ensures |r| == |sorted| + 1
  {
    if sorted == [] || !Less(x, sorted[0]) then [x] + sorted else [sorted[0]] + Insert(x, sorted[1..])
  }

  function SortDescending(s: seq<Listed>): (r: seq<Listed>)
    ensures |r| == |s|
  {
    if s == [] then [] else Insert(s[0], SortDescending(s[1..]))
  }

  function Candidates(threads: seq<Listed>): seq<Listed> {
    if threads == [] then []
    else Candidates(threads[..|threads| - 1]) +
         (if Priority(threads[|threads| - 1].thread.state) > 0 then [threads[|threads| - 1]] else [])
  }

  /** `current_thread`: collect, sort, take the first. */
  method Current(threads: seq<Listed>) returns (current: Option<Listed>)
    ensures current == None ==> forall i :: 0 <= i < |threads| ==> Priority(threads[i].thread.state) == 0
    ensures current.Some? ==> exists i :: IsCurrent(threads, i) && current == Some(threads[i])
  {
    var candidates := [];
    for i := 0 to |threads|
      invariant candidates == Candidates(threads[..i])
    {
      assert threads[..i + 1][..i] == threads[..i];
      if Priority(threads[i].thread.state) > 0 {
        candidates := candidates + [threads[i]];
      }
    }
    assert threads[..|threads|] == threads;
    if candidates == [] {
      NoCandidates(threads);
      return None;
    }
    var first := FirstIsGreatest(candidates);
    CandidateIsCurrent(threads, first);
    candidates := SortDescending(candidates);
    return Some(candidates[0]);
  }

  /** The greatest key among the candidates, and the first in the list to have it. */
  ghost predicate IsCurrent(threads: seq<Listed>, i: int) {
    && 0 <= i < |threads| && Priority(threads[i].thread.state) > 0
    && (forall j :: 0 <= j < |threads| ==> !Less(threads[i], threads[j]))
    && (forall j :: 0 <= j < i ==> Priority(threads[j].thread.state) == 0 || Less(threads[j], threads[i]))
  }

  // ---- Order ----

  lemma {:induction false} BeforeIsTotal(a: string, b: string)
    ensures Before(a, b) || a == b || Before(b, a)
    ensures !(Before(a, b) && Before(b, a)) && !Before(a, a)
    decreases |a|
  {
    if a != "" {
      BeforeIsTotal(a[1..], a[1..]);
      if b != "" && a[0] == b[0] {
        BeforeIsTotal(a[1..], b[1..]);
        assert a == [a[0]] + a[1..] && b == [b[0]] + b[1..];
      }
    }
  }

  lemma {:induction false} BeforeIsTransitive(a: string, b: string, c: string)
    requires Before(a, b) && Before(b, c)
    ensures Before(a, c)
    decreases |a|
  {
    if a != "" && a[0] == b[0] == c[0] {
      BeforeIsTransitive(a[1..], b[1..], c[1..]);
    }
  }

  /** Not less than one that is not less than a third. */
  lemma LessIsWeakOrder(a: Listed, b: Listed, c: Listed)
    ensures Less(a, b) && !Less(c, b) ==> Less(a, c)
    ensures Less(a, b) && Less(b, c) ==> Less(a, c)
    ensures !(Less(a, b) && Less(b, a))
  {
    BeforeIsTotal(a.updatedAt, b.updatedAt);
    BeforeIsTotal(b.updatedAt, c.updatedAt);
    if Before(a.updatedAt, b.updatedAt) && Before(b.updatedAt, c.updatedAt) {
      BeforeIsTransitive(a.updatedAt, b.updatedAt, c.updatedAt);
    }
  }

  predicate IsGreatest(s: seq<Listed>, i: int) {
    && 0 <= i < |s|
    && (forall j :: 0 <= j < |s| ==> !Less(s[i], s[j]))
    && (forall j :: 0 <= j < i ==> Less(s[j], s[i]))
  }

  /** The first of the sorted list is the first greatest of the unsorted one. */
  lemma {:induction false} FirstIsGreatest(s: seq<Listed>) returns (i: int)
    requires s != []
    ensures IsGreatest(s, i) && SortDescending(s)[0] == s[i]
  {
    hide Less;
    i := 0;
    if |s| > 1 {
      var rest := FirstIsGreatest(s[1..]);
      LessIsWeakOrder(s[0], s[0], s[0]);
      if Less(s[0], s[1..][rest]) {
        i := rest + 1;
        forall j | 0 <= j < |s| ensures !Less(s[i], s[j]) {
          LessIsWeakOrder(s[0], s[i], s[0]);
        }
      } else {
        forall j | 0 <= j < |s| ensures !Less(s[0], s[j]) {
          if j > 0 {
            assert s[j] == s[1..][j - 1];
            LessIsWeakOrder(s[0], s[j], s[1..][rest]);
          }
        }
      }
    } else {
      LessIsWeakOrder(s[0], s[0], s[0]);
    }
  }

  lemma {:induction false} CandidateMember(threads: seq<Listed>, t: Listed)
    ensures t in Candidates(threads) <==> t in threads && Priority(t.thread.state) > 0
  {
    if threads != [] {
      CandidateMember(threads[..|threads| - 1], t);
      assert threads == threads[..|threads| - 1] + [threads[|threads| - 1]];
    }
  }

  lemma NoCandidates(threads: seq<Listed>)
    requires Candidates(threads) == []
    ensures forall i :: 0 <= i < |threads| ==> Priority(threads[i].thread.state) == 0
  {
    forall i | 0 <= i < |threads| ensures Priority(threads[i].thread.state) == 0 {
      CandidateMember(threads, threads[i]);
    }
  }

  /** Candidates keep the order of the list: the k-th comes from an index before which all candidates come earlier. */
  lemma {:induction false} CandidateIndex(threads: seq<Listed>, k: int) returns (i: int)
    requires 0 <= k < |Candidates(threads)|
    ensures 0 <= i < |threads| && threads[i] == Candidates(threads)[k] && Priority(threads[i].thread.state) > 0
    ensures forall j :: 0 <= j < i && Priority(threads[j].thread.state) > 0 ==> threads[j] in Candidates(threads)[..k]
  {
    var front, last := threads[..|threads| - 1], threads[|threads| - 1];
    if k < |Candidates(front)| {
      i := CandidateIndex(front, k);
      assert Candidates(threads)[..k] == Candidates(front)[..k];
      forall j | 0 <= j < i && Priority(threads[j].thread.state) > 0 ensures threads[j] in Candidates(threads)[..k] {
        assert threads[j] == front[j];
      }
    } else {
      i := |front|;
      assert Candidates(threads)[..k] == Candidates(front);
      forall j | 0 <= j < i && Priority(threads[j].thread.state) > 0 ensures threads[j] in Candidates(threads)[..k] {
        assert threads[j] == front[j];
        CandidateMember(front, front[j]);
      }
    }
  }

  lemma CandidateIsCurrent(threads: seq<Listed>, k: int)
    requires IsGreatest(Candidates(threads), k)
    ensures exists i :: IsCurrent(threads, i) && threads[i] == Candidates(threads)[k]
  {
    var i := CandidateIndex(threads, k);
    var candidates := Candidates(threads);
    forall j | 0 <= j < |threads| ensures !Less(threads[i], threads[j]) {
      CandidateMember(threads, threads[j]);
      if threads[j] in candidates {
        var n :| 0 <= n < |candidates| && candidates[n] == threads[j];
      }
    }
    forall j | 0 <= j < i ensures Priority(threads[j].thread.state) == 0 || Less(threads[j], threads[i]) {
      if Priority(threads[j].thread.state) > 0 {
        var n :| 0 <= n < k && candidates[..k][n] == threads[j];
        assert candidates[n] == threads[j];
      }
    }
    assert IsCurrent(threads, i);
  }

  // ---- Against the agent's summary ----

  function Threads(threads: seq<Listed>): seq<Thread> {
    seq(|threads|, i requires 0 <= i < |threads| => threads[i].thread)
  }

  lemma ListedPresence(threads: seq<Listed>, st: State)
    ensures Tally(Threads(threads), st) > 0 <==> exists i :: 0 <= i < |threads| && threads[i].thread.state == st
  {
    TallyPresence(Threads(threads), st);
    if i :| 0 <= i < |threads| && threads[i].thread.state == st {
      assert Threads(threads)[i] in Threads(threads);
    }
  }

  lemma CurrentIsPresent(threads: seq<Listed>, i: int)
    requires IsCurrent(threads, i)
    ensures Tally(Threads(threads), threads[i].thread.state) > 0
    ensures forall st :: Tally(Threads(threads), st) > 0 ==> Priority(st) <= Priority(threads[i].thread.state)
  {
    ListedPresence(threads, threads[i].thread.state);
    forall st | Tally(Threads(threads), st) > 0 ensures Priority(st) <= Priority(threads[i].thread.state) {
      ListedPresence(threads, st);
      var j :| 0 <= j < |threads| && threads[j].thread.state == st;
      assert !Less(threads[i], threads[j]);
    }
  }

  /** Over one list, client and agent pick the same state, except that a running thread hides an error from the client;
      and the client has nothing to show exactly when the agent's workload is unknown. */
  lemma CurrentFollowsWorkload(threads: seq<Listed>)
    ensures var workload := SummaryOf(Threads(threads), false).workloadState;
            && (workload == Unknown <==> forall i :: 0 <= i < |threads| ==> Priority(threads[i].thread.state) == 0)
            && (forall i :: IsCurrent(threads, i) ==>
                  threads[i].thread.state == if workload == Error && Tally(Threads(threads), Running) > 0 then Running
                      else workload)
  {
    hide Less, SummaryOf, Tally;
    WorkloadByPriority(Threads(threads));
    ListedPresence(threads, WaitingApproval);
    ListedPresence(threads, WaitingInput);
    ListedPresence(threads, Running);
    ListedPresence(threads, Error);
    forall i | IsCurrent(threads, i)
      ensures threads[i].thread.state == (var c := TallyAll(Threads(threads));
                                          if PriorityState(c) == Error && c.running > 0 then Running
                                              else PriorityState(c))
    {
      CurrentIsPresent(threads, i);
    }
  }

  /** So it is at every lock release of every run, for the list the agent shows and the summary beside it. */
  lemma ClientFollowsAgent(states: seq<MonitorState>, steps: seq<Step>, times: seq<int>, k: nat, threads: seq<Listed>)
    requires Run(states, steps, times) && k < |states| && Threads(threads) == states[k].snapshot.threads
    ensures var summary := states[k].snapshot.summary;
            && (summary.workloadState == Unknown <==> forall i :: 0 <= i < |threads| ==>
                Priority(threads[i].thread.state) == 0)
            && (forall i :: IsCurrent(threads, i) ==>
                  threads[i].thread.state ==
                  if summary.workloadState == Error && summary.states.running > 0 then Running
                      else summary.workloadState)
  {
    WorkloadIsNeverIdle(states, steps, times, k);
    CurrentFollowsWorkload(threads);
    hide Run, IsCurrent, PriorityState, Tally;
  }

  // ---- Text order and time order ----

  lemma {:induction false} BeforeAfterPrefix(prefix: string, a: string, b: string)
    ensures Before(prefix + a, prefix + b) <==> Before(a, b)
  {
    if prefix == "" {
      assert prefix + a == a && prefix + b == b;
    } else {
      assert (prefix + a)[1..] == prefix[1..] + a && (prefix + b)[1..] == prefix[1..] + b;
      BeforeAfterPrefix(prefix[1..], a, b);
    }
  }

  predicate Trimmed(f: string) {
    AllDigits(f) && (f != "" ==> f[|f| - 1] != '0')
  }

  /** The fraction of a second as RFC 3339 text carries it: at most nine digits, trailing zeros trimmed. */
  predicate IsFraction(f: string) {
    Trimmed(f) && |f| <= 9
  }

  /** `updated_at`: the second at fixed width, then the fraction if there is one. */
  function Stamp(second: string, f: string): string {
    second + (if f == "" then "Z" else "." + f + "Z")
  }

  function Pow10(n: nat): nat {
    if n == 0 then 1 else 10 * Pow10(n - 1)
  }

  /** The fraction in units of its `n`-th digit; at nine digits, in nanoseconds. */
  function Scaled(f: string, n: nat): nat
    requires AllDigits(f)
  {
    if n == 0 then 0
    else if f == "" then 0
    else DigitValue(f[0]) * Pow10(n - 1) + Scaled(f[1..], n - 1)
  }

  lemma DigitTimes(d: nat, p: nat)
    requires d <= 9
    ensures d * p <= 9 * p
  {
  }

  lemma {:induction false} ScaledBelow(f: string, n: nat)
    requires AllDigits(f)
    ensures Scaled(f, n) < Pow10(n)
  {
    if n > 0 && f != "" {
      ScaledBelow(f[1..], n - 1);
      DigitTimes(DigitValue(f[0]), Pow10(n - 1));
    } else {
      PowIsPositive(n);
    }
  }

  lemma {:induction false} PowIsPositive(n: nat)
    ensures Pow10(n) > 0
  {
    if n > 0 {
      PowIsPositive(n - 1);
    }
  }

  lemma {:induction false} TrimmedIsPositive(f: string, n: nat)
    requires AllDigits(f) && f != "" && |f| <= n && f[|f| - 1] != '0'
    ensures Scaled(f, n) > 0
  {
    PowIsPositive(n - 1);
    if |f| > 1 {
      TrimmedIsPositive(f[1..], n - 1);
      ProductIsPositive(DigitValue(f[0]), Pow10(n - 1));
    } else {
      ProductIsPositive(DigitValue(f[0]), Pow10(n - 1));
      assert Scaled(f[1..], n - 1) >= 0;
    }
  }

  lemma ProductIsPositive(d: nat, p: nat)
    requires p > 0
    ensures d * p >= 0 && (d > 0 ==> d * p > 0)
  {
  }

  /** A greater leading digit outweighs all that follows. */
  lemma LeadingDigit(a: nat, b: nat, p: nat, x: nat, y: nat)
    requires a < b && x < p
    ensures a * p + x < b * p + y
  {
    assert (a + 1) * p <= b * p;
  }

  /** Trimmed fractions compare as text as they do as numbers. */
  lemma {:induction false} FractionOrder(f: string, g: string, n: nat)
    requires Trimmed(f) && Trimmed(g) && |f| <= n && |g| <= n
    ensures Before(f, g) <==> Scaled(f, n) < Scaled(g, n)
    decreases n
  {
    if g != "" && f == "" {
      TrimmedIsPositive(g, n);
    } else if f != "" && g != "" {
      ScaledBelow(f[1..], n - 1);
      ScaledBelow(g[1..], n - 1);
      if f[0] == g[0] {
        FractionOrder(f[1..], g[1..], n - 1);
      } else if f[0] < g[0] {
        LeadingDigit(DigitValue(f[0]), DigitValue(g[0]), Pow10(n - 1), Scaled(f[1..], n - 1), Scaled(g[1..], n - 1));
      } else {
        LeadingDigit(DigitValue(g[0]), DigitValue(f[0]), Pow10(n - 1), Scaled(g[1..], n - 1), Scaled(f[1..], n - 1));
      }
    }
  }

  /** One fraction continues the other. */
  predicate OneExtends(f: string, g: string) {
    f <= g || g <= f
  }

  /** The closing letter sorts after every digit, so it turns the order round where one fraction continues the other. */
  lemma {:induction false} BeforeWithLetter(f: string, g: string)
    requires AllDigits(f) && AllDigits(g) && f != g
    ensures Before(f + "Z", g + "Z") <==> if OneExtends(f, g) then Before(g, f) else Before(f, g)
    decreases |f|
  {
    if f != "" && g != "" && f[0] == g[0] {
      assert (f + "Z")[1..] == f[1..] + "Z" && (g + "Z")[1..] == g[1..] + "Z";
      assert f == [f[0]] + f[1..] && g == [g[0]] + g[1..];
      BeforeWithLetter(f[1..], g[1..]);
      assert OneExtends(f, g) <==> OneExtends(f[1..], g[1..]);
    } else if f == "" {
      assert f + "Z" == "Z" && (g + "Z")[0] == g[0];
    } else if g == "" {
      assert g + "Z" == "Z" && (f + "Z")[0] == f[0];
    }
  }

  /** Which of two fractions of one second is earlier, in nanoseconds. */
  predicate Earlier(f: string, g: string)
    requires IsFraction(f) && IsFraction(g)
  {
    Scaled(f, 9) < Scaled(g, 9)
  }

  lemma TailOrder(second: string, f: string, g: string)
    requires IsFraction(f) && IsFraction(g) && f != g
    ensures Before(Stamp(second, f), Stamp(second, g)) <==> if OneExtends(f, g) then Before(g, f) else Before(f, g)
  {
    var a, b := if f == "" then "Z" else "." + f + "Z", if g == "" then "Z" else "." + g + "Z";
    BeforeAfterPrefix(second, a, b);
    if f != "" && g != "" {
      assert a == "." + (f + "Z") && b == "." + (g + "Z");
      BeforeAfterPrefix(".", f + "Z", g + "Z");
      BeforeWithLetter(f, g);
    } else {
      assert f == "" || a[0] == '.';
      assert g == "" || b[0] == '.';
    }
  }

  /** Within one second the text tells two different times in their order exactly when neither fraction continues
      the other; a whole second, whose fraction is empty, is continued by every other time. */
  lemma TextOrderExactly(second: string, f: string, g: string)
    requires IsFraction(f) && IsFraction(g) && f != g
    ensures (Before(Stamp(second, f), Stamp(second, g)) <==> Earlier(f, g)) <==> !OneExtends(f, g)
  {
    TailOrder(second, f, g);
    FractionOrder(f, g, 9);
    BeforeIsTotal(f, g);
  }

  /** Different seconds, written at one width, always compare as themselves. */
  lemma {:induction false} SecondsCompare(s: string, t: string, a: string, b: string)
    requires |s| == |t| && s != t
    ensures Before(s + a, t + b) <==> Before(s, t)
  {
    if s[0] == t[0] {
      assert (s + a)[1..] == s[1..] + a && (t + b)[1..] == t[1..] + b;
      assert s == [s[0]] + s[1..] && t == [t[0]] + t[1..];
      SecondsCompare(s[1..], t[1..], a, b);
    }
  }

  /** One time is before another: in an earlier second, or earlier in the same one. */
  predicate Sooner(s: string, f: string, t: string, g: string)
    requires IsFraction(f) && IsFraction(g)
  {
    Before(s, t) || (s == t && Earlier(f, g))
  }

  /** Text order and time order of two stamps agree exactly when the seconds differ, the times are the same,
      or neither fraction continues the other. */
  lemma StampOrderExactly(s: string, f: string, t: string, g: string)
    requires IsFraction(f) && IsFraction(g) && |s| == |t|
    ensures (Before(Stamp(s, f), Stamp(t, g)) <==> Sooner(s, f, t, g)) <==> s != t || f == g || !OneExtends(f, g)
  {
    BeforeIsTotal(s, t);
    hide Before, IsFraction;
    if s != t {
      SecondsCompare(s, t, Stamp("", f), Stamp("", g));
      assert Stamp(s, f) == s + Stamp("", f) && Stamp(t, g) == t + Stamp("", g);
    } else if f == g {
      BeforeIsTotal(Stamp(s, f), Stamp(s, f));
    } else {
      hide Stamp, OneExtends;
      TextOrderExactly(s, f, g);
    }
  }

  /** Of two candidates of one priority the client ranks the newer one higher, whichever it is, exactly then. */
  lemma NewerIsPreferredExactly(a: Listed, b: Listed, s: string, f: string, t: string, g: string)
    requires Priority(a.thread.state) == Priority(b.thread.state) && |s| == |t| && IsFraction(f) && IsFraction(g)
    requires a.updatedAt == Stamp(s, f) && b.updatedAt == Stamp(t, g)
    ensures (Less(a, b) <==> Sooner(s, f, t, g)) <==> s != t || f == g || !OneExtends(f, g)
  {
    hide Before, IsFraction, Stamp, OneExtends, Sooner;
    StampOrderExactly(s, f, t, g);
  }

  /** In particular an update on a whole second sorts after every other one within that second. */
  lemma WholeSecondSortsLast(second: string, fraction: string)
    ensures Before(second + "." + fraction + "Z", second + "Z")
  {
    assert second + "." + fraction + "Z" == second + ("." + fraction + "Z");
    BeforeAfterPrefix(second, "." + fraction + "Z", "Z");
  }
}
