// Small shared vocabulary: optional values, identifiers, and two facts about
// counting that several modules use.
module Common {

  datatype Option<+T> = None | Some(value: T)

  // A Go (value, error) pair, of which exactly one is meaningful.
  datatype Result<+T, +E> = Ok(value: T) | Err(error: E)

  // Go strings that hold UUIDs, random tokens, e-mail addresses and the like.
  type Id = string

  // Nanoseconds, as read from the application's or the database's clock.
  type Time = int

  const HOUR: Time := 3_600_000_000_000

  // A map that keeps every entry of another.
  ghost predicate Extends<K, V>(m: map<K, V>, m': map<K, V>) {
    forall k {:trigger m'[k]} {:trigger m[k]} | k in m :: k in m' && m'[k] == m[k]
  }

  // An injective function from one finite set into another cannot lose elements.
  lemma {:induction false} InjectionBounds<A, B>(xs: set<A>, ys: set<B>, f: map<A, B>)
    requires xs <= f.Keys
    requires forall x | x in xs :: f[x] in ys
    requires forall x, y | x in xs && y in xs && f[x] == f[y] :: x == y
    ensures |xs| <= |ys|
  {
    if xs != {} {
      var x :| x in xs;
      InjectionBounds(xs - {x}, ys - {f[x]}, f);
    }
  }

  // A list without repetitions is no longer than a set that holds all of it.
  lemma {:induction false} DistinctBounds<A>(xs: seq<A>, ys: set<A>)
    requires forall i | 0 <= i < |xs| :: xs[i] in ys
    requires forall i, j | 0 <= i < j < |xs| :: xs[i] != xs[j]
    ensures |xs| <= |ys|
  {
    if xs != [] {
      var last := xs[|xs| - 1];
      DistinctBounds(xs[..|xs| - 1], ys - {last});
    }
  }
}
