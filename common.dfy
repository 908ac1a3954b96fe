/** Shared vocabulary of the retrieval core: failure-carrying results, the
    Python exceptions the core raises, and the values stored in record
    metadata dictionaries. */
module Common {

  datatype Result<T, E> = Success(value: T) | Failure(error: E)

  /** The exceptions the modelled code raises, with the message `str(e)` gives. */
  datatype Error =
    | ValueError(message: string)
    | TypeError(message: string)
    | HttpError(status: nat, detail: string)
  {
    /** What `str(e)` yields for the exception. */
    function Text(): string {
      match this
      case ValueError(m) => m
      case TypeError(m) => m
      case HttpError(status, detail) => detail
    }
  }

  /** A value in a metadata dictionary: the code stores strings (ids, names,
      chunk text) and integers (chunk indices). */
  datatype MetaValue = Str(s: string) | Int(i: int)

  type Metadata = map<string, MetaValue>

  /** Python's `dict.get(key, default)`. */
  function Get(m: Metadata, key: string, default: MetaValue): (v: MetaValue)
    ensures key in m ==> v == m[key]
    ensures key !in m ==> v == default
  {
    if key in m then m[key] else default
  }

  function Min(a: int, b: int): int {
    if a <= b then a else b
  }

  /** True when no element occurs twice. */
  predicate Distinct<T(==)>(s: seq<T>) {
    forall i, j :: 0 <= i < j < |s| ==> s[i] != s[j]
  }

  /** Concatenation of a sequence of sequences. */
  function Flatten<T>(ss: seq<seq<T>>): seq<T> {
    if |ss| == 0 then [] else ss[0] + Flatten(ss[1..])
  }

  lemma {:induction false} FlattenAppend<T>(a: seq<seq<T>>, b: seq<seq<T>>)
    ensures Flatten(a + b) == Flatten(a) + Flatten(b)
  {
    if |a| == 0 {
      assert a + b == b;
    } else {
      assert (a + b)[1..] == a[1..] + b;
      FlattenAppend(a[1..], b);
    }
  }

  /** The empty sequence is a unit of concatenation. */
  lemma AppendEmpty<T>(s: seq<T>)
    ensures s + [] == s && [] + s == s
  {
  }

  /** The first m elements from position i on, and what follows them. */
  lemma DropSlices<T>(s: seq<T>, i: nat, m: nat)
    requires i + m <= |s|
    ensures s[i..][..m] == s[i..i + m] && s[i..][m..] == s[i + m..]
  {
  }

  /** Taking a non-empty sequence apart at its head, alone or in front of another. */
  lemma AppendTail<T>(a: seq<T>, b: seq<T>)
    requires |a| >= 1
    ensures (a + b)[0] == a[0] && (a + b)[1..] == a[1..] + b
    ensures [a[0]] + (a[1..] + b) == a + b && [a[0]] + a[1..] == a
  {
  }

  /** A non-empty sequence is its front followed by its last element. */
  lemma FrontLast<T>(s: seq<T>)
    requires |s| >= 1
    ensures s[..|s| - 1] + [s[|s| - 1]] == s
  {
  }

  lemma FlattenOne<T>(s: seq<T>)
    ensures Flatten([s]) == s
  {
    assert [s][1..] == [];
  }

  /** A new last inner sequence adds its elements at the end of the flattening. */
  lemma FlattenSnoc<T>(g: seq<seq<T>>, x: T)
    ensures Flatten(g + [[x]]) == Flatten(g) + [x]
  {
    FlattenAppend(g, [[x]]);
    FlattenOne([x]);
  }

  /** Growing the last inner sequence grows the flattening at its end. */
  lemma FlattenSnocLast<T>(front: seq<seq<T>>, last: seq<T>, x: T)
    ensures Flatten(front + [last + [x]]) == Flatten(front + [last]) + [x]
  {
    FlattenAppend(front, [last]);
    FlattenAppend(front, [last + [x]]);
    FlattenOne(last);
    FlattenOne(last + [x]);
  }

  newtype byte = x: int | 0 <= x < 256
}
