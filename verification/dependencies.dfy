/** The lockfile walk: a worklist that finds exactly what is reachable through packages installable
    on this platform. */
module Dependencies {
  type Key = string

  /** The platforms a package declares; no declaration means any. */
  datatype Meta = Meta(os: seq<string>, cpu: seq<string>)

  datatype Lock = Lock(
    platformOs: string, platformCpu: string,
    packages: map<Key, Meta>, snapshots: map<Key, seq<Key>>)

  /** The part of a snapshot key before its peer suffix. */
  function BaseKey(key: Key): Key {
    if key == [] || key[0] == '(' then [] else [key[0]] + BaseKey(key[1..])
  }

  /** Declared by name, or not excluded by a negated name. */
  predicate Accepts(declared: seq<string>, platform: string) {
    declared == [] || exists d | d in declared ::
      d == platform || (d != [] && d[0] == '!' && d[1..] != platform)
  }

  predicate PlatformOk(g: Lock, key: Key) {
    var base := BaseKey(key);
    base in g.packages ==> Accepts(g.packages[base].os, g.platformOs) && Accepts(g.packages[base].cpu, g.platformCpu)
  }

  function Needs(g: Lock, key: Key): seq<Key> {
    if key in g.snapshots then g.snapshots[key] else []
  }

  /* ---- reachability, by paths ---- */

  /** A chain of installable packages, each needed by the one before. */
  ghost predicate IsPath(g: Lock, p: seq<Key>) {
    && p != []
    && (forall i | 0 <= i < |p| :: PlatformOk(g, p[i]))
    && (forall i | 0 < i < |p| :: p[i] in Needs(g, p[i - 1]))
  }

  ghost predicate Reachable(g: Lock, roots: set<Key>, key: Key) {
    exists p :: IsPath(g, p) && p[0] in roots && p[|p| - 1] == key
  }

  lemma ReachableRoot(g: Lock, roots: set<Key>, key: Key)
    requires key in roots && PlatformOk(g, key)
    ensures Reachable(g, roots, key)
  {
    assert IsPath(g, [key]);
  }

  lemma ReachableNext(g: Lock, roots: set<Key>, key: Key, next: Key)
    requires Reachable(g, roots, key) && next in Needs(g, key) && PlatformOk(g, next)
    ensures Reachable(g, roots, next)
  {
    var p :| IsPath(g, p) && p[0] in roots && p[|p| - 1] == key;
    var q := p + [next];
    assert IsPath(g, q) && q[0] in roots && q[|q| - 1] == next;
  }

  /** A set that has the installable roots and is closed under need contains all that is reachable. */
  lemma {:induction false} ClosedContains(g: Lock, roots: set<Key>, seen: set<Key>, p: seq<Key>)
    requires forall k | k in roots && PlatformOk(g, k) :: k in seen
    requires forall k, next | k in seen && next in Needs(g, k) && PlatformOk(g, next) :: next in seen
    requires IsPath(g, p) && p[0] in roots
    ensures p[|p| - 1] in seen
    decreases |p|
  {
    if |p| > 1 {
      var q := p[..|p| - 1];
      assert IsPath(g, q);
      ClosedContains(g, roots, seen, q);
      assert p[|p| - 1] in Needs(g, q[|q| - 1]);
    }
  }

  /* ---- the worklist ---- */

  function AsSet(keys: seq<Key>): set<Key> {
    set k | k in keys
  }

  /** Every key the walk can come across. */
  function Universe(g: Lock, roots: seq<Key>): set<Key> {
    AsSet(roots) + (set key, need | key in g.snapshots && need in g.snapshots[key] :: need)
  }

  /** Half way through: everything seen is reachable, everything stacked is too unless it is not
      installable, and whatever the roots or a seen key need is seen or stacked. */
  ghost predicate Walk(g: Lock, roots: seq<Key>, seen: set<Key>, stack: seq<Key>) {
    HalfWay(g, roots, seen, AsSet(stack))
  }

  ghost predicate HalfWay(g: Lock, roots: seq<Key>, seen: set<Key>, stacked: set<Key>) {
    && seen <= Universe(g, roots) && stacked <= Universe(g, roots)
    && (forall k | k in seen :: Reachable(g, AsSet(roots), k))
    && (forall k | k in stacked && PlatformOk(g, k) :: Reachable(g, AsSet(roots), k))
    && (forall k | k in AsSet(roots) && PlatformOk(g, k) :: k in seen || k in stacked)
    && (forall k, next | k in seen && next in Needs(g, k) && PlatformOk(g, next) :: next in seen || next in stacked)
  }

  lemma WalkStarts(g: Lock, roots: seq<Key>)
    ensures Walk(g, roots, {}, roots)
  {
    forall k | k in AsSet(roots) && PlatformOk(g, k) ensures Reachable(g, AsSet(roots), k) {
      ReachableRoot(g, AsSet(roots), k);
    }
  }

  lemma WalkDrops(g: Lock, roots: seq<Key>, seen: set<Key>, stack: seq<Key>)
    requires stack != [] && Walk(g, roots, seen, stack)
    requires stack[|stack| - 1] in seen || !PlatformOk(g, stack[|stack| - 1])
    ensures Walk(g, roots, seen, stack[..|stack| - 1])
  {
    assert AsSet(stack) == AsSet(stack[..|stack| - 1]) + {stack[|stack| - 1]} by {
      assert stack == stack[..|stack| - 1] + [stack[|stack| - 1]];
    }
  }

  lemma StackSets(rest: seq<Key>, key: Key, needs: seq<Key>)
    ensures AsSet(rest + [key]) == AsSet(rest) + {key} && AsSet(rest + needs) == AsSet(rest) + AsSet(needs)
  {
  }

  lemma VisitKeeps(g: Lock, roots: seq<Key>, seen: set<Key>, rest: set<Key>, key: Key)
    requires HalfWay(g, roots, seen, rest + {key}) && PlatformOk(g, key)
    ensures HalfWay(g, roots, seen + {key}, rest + AsSet(Needs(g, key))) && key in Universe(g, roots)
  {
    var needs := Needs(g, key);
    assert AsSet(needs) <= Universe(g, roots);
    assert forall next | next in AsSet(needs) :: next in needs;
    assert forall next | next in needs :: next in AsSet(needs);
    hide PlatformOk, Needs, Universe, Reachable, AsSet;
    assert key in rest + {key};
    forall next | next in needs && PlatformOk(g, next) ensures Reachable(g, AsSet(roots), next) {
      ReachableNext(g, AsSet(roots), key, next);
    }
  }

  lemma WalkVisits(g: Lock, roots: seq<Key>, seen: set<Key>, stack: seq<Key>)
    requires stack != [] && Walk(g, roots, seen, stack)
    requires PlatformOk(g, stack[|stack| - 1])
    ensures var key := stack[|stack| - 1]; Walk(g, roots, seen + {key}, stack[..|stack| - 1] + Needs(g, key))
    ensures stack[|stack| - 1] in Universe(g, roots)
  {
    hide HalfWay, PlatformOk, Needs, Universe, AsSet;
    var key, rest := stack[|stack| - 1], stack[..|stack| - 1];
    assert stack == rest + [key];
    StackSets(rest, key, Needs(g, key));
    VisitKeeps(g, roots, seen, AsSet(rest), key);
  }

  lemma WalkEnds(g: Lock, roots: seq<Key>, seen: set<Key>, k: Key)
    requires Walk(g, roots, seen, [])
    ensures k in seen <==> Reachable(g, AsSet(roots), k)
  {
    if Reachable(g, AsSet(roots), k) {
      var p :| IsPath(g, p) && p[0] in AsSet(roots) && p[|p| - 1] == k;
      assert AsSet([]) == {};
      hide PlatformOk, Needs, Universe, Reachable;
      ClosedContains(g, AsSet(roots), seen, p);
    }
  }

  /** Pops keys until none is left; a key already seen, or not installable here, is dropped. */
  method Closure(g: Lock, roots: seq<Key>) returns (result: set<Key>)
    ensures forall base :: base in result <==> exists k :: Reachable(g, AsSet(roots), k) && BaseKey(k) == base
  {
    var seen: set<Key>, stack := {}, roots;
    WalkStarts(g, roots);
    while stack != []
      invariant Walk(g, roots, seen, stack)
      decreases Universe(g, roots) - seen, |stack|
    {
      var key := stack[|stack| - 1];
      if key in seen || !PlatformOk(g, key) {
        WalkDrops(g, roots, seen, stack);
        stack := stack[..|stack| - 1];
        continue;
      }
      WalkVisits(g, roots, seen, stack);
      seen := seen + {key};
      stack := stack[..|stack| - 1] + Needs(g, key);
    }
    result := set k | k in seen :: BaseKey(k);
    forall k ensures k in seen <==> Reachable(g, AsSet(roots), k) {
      WalkEnds(g, roots, seen, k);
    }
  }

  /* ---- runtime and build packages ---- */

  lemma {:induction false} PathInUniverse(g: Lock, roots: seq<Key>, p: seq<Key>)
    requires IsPath(g, p) && p[0] in roots
    ensures p[|p| - 1] in Universe(g, roots)
    decreases |p|
  {
    if |p| > 1 {
      var n := |p| - 1;
      assert p[n] in Needs(g, p[n - 1]);
      assert p[n - 1] in g.snapshots && p[n] in g.snapshots[p[n - 1]];
    }
  }

  /** What the walk returns, as a set: the base keys of everything reachable. */
  ghost function ClosureOf(g: Lock, roots: seq<Key>): set<Key> {
    set k | k in Universe(g, roots) && Reachable(g, AsSet(roots), k) :: BaseKey(k)
  }

  lemma ClosureOfExact(g: Lock, roots: seq<Key>, base: Key)
    ensures base in ClosureOf(g, roots) <==> exists k :: Reachable(g, AsSet(roots), k) && BaseKey(k) == base
  {
    forall k | Reachable(g, AsSet(roots), k) ensures k in Universe(g, roots) {
      var p :| IsPath(g, p) && p[0] in AsSet(roots) && p[|p| - 1] == k;
      PathInUniverse(g, roots, p);
    }
  }

  lemma ReachableUnion(g: Lock, a: set<Key>, b: set<Key>, key: Key)
    ensures Reachable(g, a + b, key) <==> Reachable(g, a, key) || Reachable(g, b, key)
  {
    if Reachable(g, a + b, key) {
      var p :| IsPath(g, p) && p[0] in a + b && p[|p| - 1] == key;
      assert p[0] in a || p[0] in b;
    }
  }

  /** The closure of several roots is the union of their closures. */
  lemma ClosureDistributes(g: Lock, a: seq<Key>, b: seq<Key>)
    ensures ClosureOf(g, a + b) == ClosureOf(g, a) + ClosureOf(g, b)
  {
    assert AsSet(a + b) == AsSet(a) + AsSet(b);
    forall base ensures base in ClosureOf(g, a + b) <==> base in ClosureOf(g, a) || base in ClosureOf(g, b) {
      ClosureOfExact(g, a + b, base);
      ClosureOfExact(g, a, base);
      ClosureOfExact(g, b, base);
      forall k ensures Reachable(g, AsSet(a + b), k) <==> Reachable(g, AsSet(a), k) || Reachable(g, AsSet(b), k) {
        ReachableUnion(g, AsSet(a), AsSet(b), k);
      }
    }
  }

  /** Runtime packages and build-only packages: what production roots reach, and what only the
      development roots do. Together they are what all roots reach, with nothing counted twice. */
  method Split(g: Lock, prodRoots: seq<Key>, devRoots: seq<Key>) returns (runtime: set<Key>, build: set<Key>)
    ensures runtime !! build
    ensures runtime + build == ClosureOf(g, prodRoots + devRoots)
    ensures runtime == ClosureOf(g, prodRoots)
  {
    runtime := Closure(g, prodRoots);
    var dev := Closure(g, devRoots);
    build := dev - runtime;
    forall base ensures base in runtime <==> base in ClosureOf(g, prodRoots) { ClosureOfExact(g, prodRoots, base); }
    forall base ensures base in dev <==> base in ClosureOf(g, devRoots) { ClosureOfExact(g, devRoots, base); }
    ClosureDistributes(g, prodRoots, devRoots);
    assert runtime + build == runtime + dev;
  }
}
