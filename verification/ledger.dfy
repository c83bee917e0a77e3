/**
 A ledger of resource acquisitions and releases.

 A trace is the sequence of acquire/release calls a piece of code issues
 against some environment. Replaying it against a stack of held resources
 tells whether the code used the resources as a strict stack: every acquire
 names a resource not already held, and every release names the most
 recently acquired resource still held. A replay that ends with the stack
 it started from leaks nothing and releases nothing twice.
 */
module Ledger {

  datatype Option<T> = None | Some(value: T)

  datatype Event<T> = Acquire(res: T) | Release(res: T)

  /** No resource occurs twice in `s`. */
  predicate Distinct<T(==)>(s: seq<T>) {
    forall i, j :: 0 <= i < j < |s| ==> s[i] != s[j]
  }

  /** The acquisitions of `s`, in order. */
  function Acquires<T>(s: seq<T>): seq<Event<T>> {
    seq(|s|, k requires 0 <= k < |s| => Acquire(s[k]))
  }

  /** The releases of `s`, in order. */
  function Releases<T>(s: seq<T>): seq<Event<T>> {
    seq(|s|, k requires 0 <= k < |s| => Release(s[k]))
  }

  function Reverse<T>(s: seq<T>): seq<T> {
    seq(|s|, k requires 0 <= k < |s| => s[|s| - 1 - k])
  }

  /** Acquire everything in `s`, then release it all again, newest first. */
  function Mirror<T>(s: seq<T>): seq<Event<T>> {
    Acquires(s) + Releases(Reverse(s))
  }

  /** A mirrored trace only ever names resources of `s`. */
  lemma MirrorResources<T>(s: seq<T>)
    ensures forall e :: e in Mirror(s) ==> e.res in s
  {
  }

  /** The resources a trace acquires, counted with multiplicity. */
  function Acquired<T>(t: seq<Event<T>>): multiset<T> {
    if t == [] then multiset{}
    else (if t[0].Acquire? then multiset{t[0].res} else multiset{}) + Acquired(t[1..])
  }

  /** The resources a trace releases, counted with multiplicity. */
  function Released<T>(t: seq<Event<T>>): multiset<T> {
    if t == [] then multiset{}
    else (if t[0].Release? then multiset{t[0].res} else multiset{}) + Released(t[1..])
  }

  /** One event against the stack `held` (top at the end); None is a misuse. */
  function Step<T(==)>(held: seq<T>, e: Event<T>): Option<seq<T>> {
    match e
    case Acquire(r) => if r in held then None else Some(held + [r])
    case Release(r) =>
      if |held| > 0 && held[|held| - 1] == r then Some(held[..|held| - 1]) else None
  }

  /** Replays a whole trace; None as soon as one event is a misuse. */
  function Replay<T(==)>(held: seq<T>, t: seq<Event<T>>): Option<seq<T>>
    decreases |t|
  {
    if t == [] then Some(held)
    else match Step(held, t[0])
      case None => None
      case Some(h) => Replay(h, t[1..])
  }

  /** Replaying `a + b` is replaying `a`, then `b` from where `a` left off. */
  lemma {:induction false} ReplayAppend<T>(held: seq<T>, a: seq<Event<T>>, b: seq<Event<T>>)
    ensures Replay(held, a + b) ==
      (match Replay(held, a)
       case None => None
       case Some(h) => Replay(h, b))
    decreases |a|
  {
    if a == [] {
      assert a + b == b;
    } else {
      assert (a + b)[0] == a[0];
      assert (a + b)[1..] == a[1..] + b;
      match Step(held, a[0])
      case None =>
      case Some(h) => ReplayAppend(h, a[1..], b);
    }
  }

  /** Acquiring fresh, pairwise distinct resources pushes them in order. */
  lemma {:induction false} ReplayAcquires<T>(held: seq<T>, s: seq<T>)
    requires Distinct(held + s)
    ensures Replay(held, Acquires(s)) == Some(held + s)
    decreases |s|
  {
    if s == [] {
      assert Acquires(s) == [];
      assert held + s == held;
    } else {
      var t := Acquires(s);
      assert t[0] == Acquire(s[0]);
      assert t[1..] == Acquires(s[1..]);
      assert s[0] !in held by {
        forall i | 0 <= i < |held|
          ensures held[i] != s[0]
        {
          assert (held + s)[i] == held[i];
          assert (held + s)[|held|] == s[0];
        }
      }
      assert Step(held, t[0]) == Some(held + [s[0]]);
      assert held + s == (held + [s[0]]) + s[1..];
      ReplayAcquires(held + [s[0]], s[1..]);
    }
  }

  /** Releasing `s` newest first pops exactly `s` off the top of the stack. */
  lemma {:induction false} ReplayReleases<T>(held: seq<T>, s: seq<T>)
    ensures Replay(held + s, Releases(Reverse(s))) == Some(held)
    decreases |s|
  {
    if s == [] {
      assert held + s == held;
    } else {
      var last := s[|s| - 1];
      var init := s[..|s| - 1];
      var t := Releases(Reverse(s));
      assert t[0] == Release(last);
      assert t[1..] == Releases(Reverse(init));
      assert held + s == (held + init) + [last];
      assert Step(held + s, t[0]) == Some(held + init);
      ReplayReleases(held, init);
    }
  }

  /** Acquiring distinct resources and releasing them newest first leaves the stack as it was. */
  lemma MirrorBalanced<T>(held: seq<T>, s: seq<T>)
    requires Distinct(held + s)
    ensures Replay(held, Mirror(s)) == Some(held)
  {
    ReplayAppend(held, Acquires(s), Releases(Reverse(s)));
    ReplayAcquires(held, s);
    ReplayReleases(held, s);
  }

  /**
   Conservation: whatever a successful replay does not still hold at the end
   was released, and nothing was released that was not held or acquired.
   */
  lemma {:induction false} ReplayConserves<T>(held: seq<T>, t: seq<Event<T>>)
    requires Replay(held, t).Some?
    ensures multiset(held) + Acquired(t) == multiset(Replay(held, t).value) + Released(t)
    decreases |t|
  {
    if t != [] {
      var e, rest := t[0], t[1..];
      var h := Step(held, e).value;
      var final := Replay(h, rest).value;
      assert Replay(held, t).value == final;
      ReplayConserves(h, rest);
      StepConserves(held, e);
      assert [e][1..] == [];
      assert Acquired(t) == Acquired([e]) + Acquired(rest);
      assert Released(t) == Released([e]) + Released(rest);
      Chain(multiset(held), Acquired([e]), Acquired(rest), multiset(h), Released([e]),
            multiset(final), Released(rest));
    }
  }

  /** One successful step conserves resources. */
  lemma StepConserves<T>(held: seq<T>, e: Event<T>)
    requires Step(held, e).Some?
    ensures multiset(held) + Acquired([e]) == multiset(Step(held, e).value) + Released([e])
  {
    assert [e][1..] == [];
    var h := Step(held, e).value;
    if e.Acquire? {
      assert h == held + [e.res];
    } else {
      assert held == h + [e.res];
    }
  }

  lemma Chain<T>(a: multiset<T>, x: multiset<T>, b: multiset<T>, c: multiset<T>, y: multiset<T>,
                 d: multiset<T>, z: multiset<T>)
    requires a + x == c + y
    requires c + b == d + z
    ensures a + (x + b) == d + (y + z)
  {
    calc {
      a + (x + b);
      (a + x) + b;
      (c + y) + b;
      (c + b) + y;
      (d + z) + y;
      d + (y + z);
    }
  }

  /**
   Acquiring distinct resources and releasing them newest first uses them as
   a stack, and releases exactly what it acquired.
   */
  lemma MirrorConserves<T>(s: seq<T>)
    requires Distinct(s)
    ensures Replay([], Mirror(s)) == Some([])
    ensures Acquired(Mirror(s)) == Released(Mirror(s))
  {
    var none: seq<T> := [];
    assert none + s == s;
    MirrorBalanced(none, s);
    ReplayConserves(none, Mirror(s));
    var t := Mirror(s);
    assert multiset(none) == multiset{};
    assert multiset(none) + Acquired(t) == Acquired(t);
    assert multiset(none) + Released(t) == Released(t);
  }

  /** A successful replay never holds a resource twice. */
  lemma {:induction false} ReplayKeepsDistinct<T>(held: seq<T>, t: seq<Event<T>>)
    requires Distinct(held)
    requires Replay(held, t).Some?
    ensures Distinct(Replay(held, t).value)
    decreases |t|
  {
    if t != [] {
      var h := Step(held, t[0]).value;
      if t[0].Acquire? {
        assert t[0].res !in held && h == held + [t[0].res];
        forall i, j | 0 <= i < j < |h|
          ensures h[i] != h[j]
        {
          if j == |held| {
            assert h[i] == held[i];
          }
        }
      } else {
        assert forall i :: 0 <= i < |h| ==> h[i] == held[i];
      }
      ReplayKeepsDistinct(h, t[1..]);
    }
  }

  /** The releases of a concatenation are the concatenated releases. */
  lemma ReleasesAppend<T>(a: seq<T>, b: seq<T>)
    ensures Releases(a + b) == Releases(a) + Releases(b)
  {
  }

  /** Issuing the acquisitions `t` of `more` after those of `held`. */
  lemma Extend<T>(trace: seq<Event<T>>, held: seq<T>, t: seq<Event<T>>, more: seq<T>)
    requires trace == Acquires(held)
    requires t == Acquires(more)
    ensures trace + t == Acquires(held + more)
  {
  }

  /**
   Issuing the releases `t` of `first`, when `first + rest` is what remains
   to be released, leaves `rest` to be released.
   */
  lemma Settle<T>(trace: seq<Event<T>>, t: seq<Event<T>>, first: seq<T>, rest: seq<T>)
    requires t == Releases(first)
    ensures trace + Releases(first + rest) == (trace + t) + Releases(rest)
  {
  }

  /** Issuing the release of `r`, when `[r] + rest` is what remains to be released, leaves `rest`. */
  lemma SettleOne<T>(trace: seq<Event<T>>, r: T, rest: seq<T>)
    ensures trace + Releases([r] + rest) == (trace + [Release(r)]) + Releases(rest)
  {
  }
}
