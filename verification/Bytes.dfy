/** Go strings as byte sequences, and the two stock result types. */
module Bytes {
  datatype Option<+T> = None | Some(value: T)

  datatype Result<+T, +E> = Ok(value: T) | Err(error: E)

  type Byte = b: int | 0 <= b < 0x100

  type Str = seq<Byte>

  /** The bytes of an ASCII literal. */
  function Ascii(s: string): (r: Str)
    ensures |r| == |s|
  {
    seq(|s|, i requires 0 <= i < |s| => if s[i] as int < 0x80 then s[i] as int else 0x3F)
  }

  function HasPrefix(s: Str, prefix: Str): bool {
    prefix <= s
  }

  lemma PlusAssoc<T>(a: seq<T>, b: seq<T>, c: seq<T>)
    ensures a + b + c == a + (b + c)
  {
  }

  lemma PlusTake<T>(a: seq<T>, b: seq<T>, i: nat)
    requires i <= |b|
    ensures (a + b)[..|a| + i] == a + b[..i]
  {
  }

  lemma PlusTakeLeft<T>(a: seq<T>, b: seq<T>, i: nat)
    requires i <= |a|
    ensures (a + b)[..i] == a[..i]
  {
  }

  lemma PlusDropLeft<T>(a: seq<T>, b: seq<T>, i: nat)
    requires i <= |a|
    ensures (a + b)[i..] == a[i..] + b
  {
  }

  lemma TakeDrop<T>(a: seq<T>, i: nat)
    requires i <= |a|
    ensures a[..i] + a[i..] == a
  {
  }

  lemma PrefixSplit<T>(a: seq<T>, all: seq<T>)
    requires a <= all
    ensures all == a + all[|a|..]
  {
  }

  lemma InitLast<T>(a: seq<T>)
    requires a != []
    ensures a[..|a| - 1] + [a[|a| - 1]] == a
  {
  }

  lemma SnocInit<T>(a: seq<T>, x: T)
    ensures (a + [x])[..|a|] == a
  {
  }

  lemma UpdateLast<T>(a: seq<T>, x: T, y: T)
    ensures (a + [x])[|a| := y] == a + [y]
  {
  }

  lemma NothingBefore<T>(a: seq<T>)
    ensures [] + a == a
  {
  }

  lemma NothingAfter<T>(a: seq<T>)
    ensures a + [] == a
  {
  }

  lemma OneByOne<T>(a: seq<T>, x: T, y: T, z: T)
    ensures a + [x, y] == a + [x] + [y]
    ensures a + [x, y, z] == a + [x] + [y] + [z]
  {
  }

  lemma TakeOneMore<T>(a: seq<T>, n: nat)
    requires n < |a|
    ensures a[..n + 1] == a[..n] + [a[n]]
  {
  }

  lemma TakeAll<T>(a: seq<T>)
    ensures a[..|a|] == a
  {
  }

  lemma TakeOfInit<T>(a: seq<T>, i: nat)
    requires i < |a|
    ensures a[..|a| - 1][..i] == a[..i]
  {
  }

  lemma DropToEnd<T>(a: seq<T>, n: nat)
    requires n <= |a|
    ensures a[n..|a|] == a[n..]
  {
  }

  lemma SliceOneMore<T>(a: seq<T>, n: nat, i: nat)
    requires n <= i < |a|
    ensures a[n..i + 1] == a[n..i] + [a[i]]
    ensures a[n..n] == []
  {
  }

  /** The pieces of a text, in order, joined with nothing between them. */
  function Concat(pieces: seq<Str>): Str {
    if pieces == [] then [] else Concat(pieces[..|pieces| - 1]) + pieces[|pieces| - 1]
  }

  lemma {:induction false} ConcatAppend(a: seq<Str>, b: seq<Str>)
    ensures Concat(a + b) == Concat(a) + Concat(b)
  {
    if b == [] {
      assert a + b == a;
    } else {
      ConcatAppend(a, b[..|b| - 1]);
      assert (a + b)[..|a + b| - 1] == a + b[..|b| - 1];
    }
  }

  lemma ConcatSnoc(a: seq<Str>, x: Str)
    ensures Concat(a + [x]) == Concat(a) + x
  {
    assert (a + [x])[..|a|] == a;
  }

  lemma ConcatOne(x: Str)
    ensures Concat([x]) == x
  {
    assert [x][..0] == [];
  }

  /** A longer cut list extends the text of a shorter one. */
  lemma ConcatPrefix(pieces: seq<Str>, i: nat, j: nat)
    requires i <= j <= |pieces|
    ensures Concat(pieces[..i]) <= Concat(pieces[..j])
  {
    assert pieces[..j] == pieces[..i] + pieces[i..j];
    ConcatAppend(pieces[..i], pieces[i..j]);
  }
}
