/**
 * Vocabulary shared by every hazard model: the calls a hazard makes on the
 * spawner bound to it, and the engine's delayed calls (`Invoke(name, delay)`).
 *
 * Time is counted in whole simulation ticks. A delayed call is kept as the
 * number of ticks it still has to wait; an entry of 0 or 1 runs on the next
 * tick, so a call scheduled with delay d runs max(d, 1) ticks later.
 */
module Engine {

  datatype Option<T> = None | Some(value: T)

  /** A call a hazard makes on its bound spawner: `PauseSpawning` or `ResumeSpawning`. */
  datatype Signal = Pause | Resume

  /** One transition of a hazard: its next state and the spawner calls it made, in order. */
  datatype Step<S> = Step(next: S, sent: seq<Signal>)

  /**
   * The spawner's `canSpawn` flag after it receives the calls `sent` in order,
   * starting from `flag`. Pause clears the flag and Resume sets it; nothing
   * is counted, so the last call decides.
   */
  function After(flag: bool, sent: seq<Signal>): (r: bool)
    ensures sent == [] ==> r == flag
    ensures sent != [] ==> r == (sent[|sent| - 1] == Resume)
    decreases |sent|
  {
    if sent == [] then flag else After(sent[0] == Resume, sent[1..])
  }

  /** Receiving two batches of calls is receiving their concatenation. */
  lemma {:induction false} AfterConcat(flag: bool, a: seq<Signal>, b: seq<Signal>)
    ensures After(After(flag, a), b) == After(flag, a + b)
    decreases |a|
  {
    if a != [] {
      assert (a + b)[1..] == a[1..] + b;
      AfterConcat(a[0] == Resume, a[1..], b);
    }
  }

  /** Some delayed call in `q` runs on the coming tick. */
  predicate Fires(q: seq<nat>)
    decreases |q|
  {
    q != [] && (q[0] <= 1 || Fires(q[1..]))
  }

  /**
   * The delayed calls still waiting after one tick: those that ran are gone,
   * every other one has one tick less to wait.
   */
  function Advance(q: seq<nat>): (r: seq<nat>)
    ensures |r| <= |q|
    ensures |r| == |q| <==> !Fires(q)
    ensures forall i :: 0 <= i < |r| ==> r[i] >= 1
  {
    if q == [] then []
    else (if q[0] <= 1 then [] else [q[0] - 1]) + Advance(q[1..])
  }

  /** The delayed calls in `q` that do not run on the coming tick, in order. */
  function StillWaiting(q: seq<nat>): (r: seq<nat>)
    ensures forall i :: 0 <= i < |r| ==> r[i] > 1
    decreases |q|
  {
    if q == [] then []
    else (if q[0] <= 1 then [] else [q[0]]) + StillWaiting(q[1..])
  }

  /**
   * One tick on the delayed calls: exactly the calls still waiting are
   * left, in the same order, each with one tick less to wait.
   */
  lemma {:induction false} AdvanceCountsDown(q: seq<nat>)
    ensures |Advance(q)| == |StillWaiting(q)|
    ensures forall i :: 0 <= i < |Advance(q)| ==> Advance(q)[i] + 1 == StillWaiting(q)[i]
    ensures !Fires(q) ==> StillWaiting(q) == q
    decreases |q|
  {
    if q != [] {
      AdvanceCountsDown(q[1..]);
      var h: seq<nat> := if q[0] <= 1 then [] else [q[0] - 1];
      var w: seq<nat> := if q[0] <= 1 then [] else [q[0]];
      assert Advance(q) == h + Advance(q[1..]);
      assert StillWaiting(q) == w + StillWaiting(q[1..]);
      forall i | 0 <= i < |Advance(q)|
        ensures Advance(q)[i] + 1 == StillWaiting(q)[i]
      {
        if i >= |h| {
          assert Advance(q)[i] == Advance(q[1..])[i - |h|];
          assert StillWaiting(q)[i] == StillWaiting(q[1..])[i - |w|];
        }
      }
    }
  }

  /** One tick on one or two pending calls. */
  lemma AdvancePair(a: nat, b: nat)
    ensures Advance([a]) == (if a <= 1 then [] else [a - 1])
    ensures Fires([a]) == (a <= 1)
    ensures Advance([a, b]) == (if a <= 1 then [] else [a - 1]) + (if b <= 1 then [] else [b - 1])
    ensures Fires([a, b]) == (a <= 1 || b <= 1)
  {
    assert [a][1..] == [];
    assert [a, b][1..] == [b];
    assert [b][1..] == [];
    assert [a, b][0] == a && [a, b][1] == b;
  }

  /**
   * `n` ticks of a hazard whose one-tick transition is `tick`: the state
   * reached and every spawner call made, in order.
   */
  function Ticks<S>(tick: S -> Step<S>, s: S, n: nat): (r: Step<S>)
    ensures n == 1 ==> r == tick(s)
    decreases n
  {
    if n == 0 then Step(s, [])
    else
      var first := tick(s);
      var rest := Ticks(tick, first.next, n - 1);
      Step(rest.next, first.sent + rest.sent)
  }

  /** Running `m` ticks and then `n` more is running `m + n` ticks. */
  lemma {:induction false} TicksAdd<S>(tick: S -> Step<S>, s: S, m: nat, n: nat)
    ensures var a := Ticks(tick, s, m);
      var b := Ticks(tick, a.next, n);
      Ticks(tick, s, m + n) == Step(b.next, a.sent + b.sent)
    decreases m
  {
    var a := Ticks(tick, s, m);
    var b := Ticks(tick, a.next, n);
    if m == 0 {
      assert a.sent == [];
    } else {
      var first := tick(s);
      TicksAdd(tick, first.next, m - 1, n);
      var rest := Ticks(tick, first.next, m - 1);
      assert first.sent + (rest.sent + b.sent) == (first.sent + rest.sent) + b.sent;
    }
  }

  /**
   * A countdown: when every tick from `f(m)`, 1 < m <= k, quietly reaches
   * `f(m - 1)`, then `j < k` ticks from `f(k)` quietly reach `f(k - j)`.
   * Stated over any tick, so that a hazard's wait is proved without
   * unfolding its tick.
   */
  lemma {:induction false} CountDown<S>(tick: S -> Step<S>, f: nat -> S, k: nat, j: nat)
    requires forall m :: 1 < m <= k ==> tick(f(m)) == Step(f(m - 1), [])
    requires j < k
    ensures Ticks(tick, f(k), j) == Step(f(k - j), [])
    decreases j
  {
    if j > 0 {
      CountDown(tick, f, k, j - 1);
      TicksAdd(tick, f(k), j - 1, 1);
      assert tick(f(k - j + 1)) == Step(f(k - j), []);
    }
  }

  /** ... and the `k`-th tick is the one taken from `f(1)`. */
  lemma CountDownThen<S>(tick: S -> Step<S>, f: nat -> S, k: nat)
    requires forall m :: 1 < m <= k ==> tick(f(m)) == Step(f(m - 1), [])
    requires k >= 1
    ensures Ticks(tick, f(k), k) == tick(f(1))
  {
    CountDown(tick, f, k, k - 1);
    TicksAdd(tick, f(k), k - 1, 1);
    assert [] + tick(f(1)).sent == tick(f(1)).sent;
  }
}
