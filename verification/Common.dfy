/** Small shared vocabulary: optional values and bytes. */
module Common {

  datatype Option<+T> = None | Some(value: T)

  /** One octet. */
  type byte = b: int | 0 <= b < 256

  /** The last element of a non-empty sequence. */
  function Last<T>(s: seq<T>): T
    requires s != []
  {
    s[|s| - 1]
  }

  /** Everything but the last element of a non-empty sequence. */
  function Init<T>(s: seq<T>): seq<T>
    requires s != []
  {
    s[..|s| - 1]
  }

  /** Sequence facts, proved once where nothing else is in scope. */
  lemma Assoc<T>(a: seq<T>, b: seq<T>, c: seq<T>)
    ensures (a + b) + c == a + (b + c)
  {
  }

  lemma Empty<T>(a: seq<T>)
    ensures a + [] == a && [] + a == a
  {
  }

  lemma CutLast<T>(a: seq<T>, i: nat)
    requires i < |a|
    ensures a[..i + 1] == a[..i] + [a[i]]
  {
  }

  lemma InitOfTake<T>(a: seq<T>, i: nat)
    requires i < |a|
    ensures Init(a[..i + 1]) == a[..i] && Last(a[..i + 1]) == a[i]
  {
  }

  lemma TakeOfInit<T>(a: seq<T>, i: nat)
    requires i < |a|
    ensures Init(a)[..i] == a[..i] && (i < |a| - 1 ==> Init(a)[i] == a[i])
  {
  }

  lemma TakeOfTake<T>(a: seq<T>, i: nat, j: nat)
    requires i <= j <= |a|
    ensures a[..j][..i] == a[..i] && (i < j ==> a[..j][i] == a[i])
  {
  }

  lemma TakeAll<T>(a: seq<T>)
    ensures a[..|a|] == a
  {
  }

  lemma SliceOfAppend<T>(a: seq<T>, b: seq<T>, lo: nat, hi: nat)
    requires lo <= hi <= |a|
    ensures (a + b)[lo..hi] == a[lo..hi] && (a + b)[hi..] == a[hi..] + b
  {
  }

  lemma PrefixAndRest<T>(a: seq<T>, b: seq<T>)
    requires a <= b
    ensures a + b[|a|..] == b
  {
  }

  lemma PrefixOfAppend<T>(a: seq<T>, b: seq<T>, c: seq<T>)
    requires a <= b
    ensures a <= b + c
  {
  }

  lemma Rejoin<T>(a: seq<T>, i: nat)
    requires i <= |a|
    ensures a[..i] + a[i..] == a
  {
  }

  /** The pieces `f` makes of the elements of `xs`, joined in order. */
  function Collect<S, T>(f: S -> seq<T>, xs: seq<S>): seq<T> {
    if xs == [] then [] else Collect(f, Init(xs)) + f(Last(xs))
  }

  lemma {:induction false} CollectConcat<S, T>(f: S -> seq<T>, a: seq<S>, b: seq<S>)
    ensures Collect(f, a + b) == Collect(f, a) + Collect(f, b)
  {
    if b == [] {
      assert a + b == a;
    } else {
      assert Init(a + b) == a + Init(b);
      CollectConcat(f, a, Init(b));
      Assoc(Collect(f, a), Collect(f, Init(b)), f(Last(b)));
    }
  }

  lemma CollectOne<S, T>(f: S -> seq<T>, x: S)
    ensures Collect(f, [x]) == f(x)
  {
    assert Init([x]) == [];
    assert [] + f(x) == f(x);
  }

  lemma {:induction false} CollectNothing<S, T>(f: S -> seq<T>, xs: seq<S>)
    requires forall i | 0 <= i < |xs| :: f(xs[i]) == []
    ensures Collect(f, xs) == []
  {
    if xs != [] {
      var pre := Init(xs);
      assert forall i | 0 <= i < |pre| :: pre[i] == xs[i];
      CollectNothing(f, pre);
    }
  }

  lemma {:induction false} CollectSame<S>(f: S -> seq<S>, xs: seq<S>)
    requires forall i | 0 <= i < |xs| :: f(xs[i]) == [xs[i]]
    ensures Collect(f, xs) == xs
  {
    if xs != [] {
      var pre, x := Init(xs), Last(xs);
      assert xs == pre + [x];
      assert forall i | 0 <= i < |pre| :: pre[i] == xs[i];
      CollectSame(f, pre);
    }
  }

  /** Big-endian 16-bit value of two octets. */
  function U16(hi: byte, lo: byte): (n: nat)
    ensures n < 0x1_0000
  {
    hi * 256 + lo
  }

  /** The two octets of a 16-bit value, most significant first. */
  function Be16(n: nat): (bs: seq<byte>)
    requires n < 0x1_0000
    ensures |bs| == 2 && U16(bs[0], bs[1]) == n
  {
    [n / 256, n % 256]
  }

  /** Big-endian 32-bit value of four octets. */
  function U32(a: byte, b: byte, c: byte, d: byte): (n: nat)
    ensures n < 0x1_0000_0000
  {
    U16(a, b) * 0x1_0000 + U16(c, d)
  }

  /** The four octets of a 32-bit value, most significant first. */
  function Be32(n: nat): (bs: seq<byte>)
    requires n < 0x1_0000_0000
    ensures |bs| == 4 && U32(bs[0], bs[1], bs[2], bs[3]) == n
  {
    var hi, lo := Be16(n / 0x1_0000), Be16(n % 0x1_0000);
    [hi[0], hi[1], lo[0], lo[1]]
  }

  lemma SmallLength(n: byte)
    ensures Be32(n) == [0, 0, 0, n]
  {
    Be32OfU32(0, 0, 0, n);
  }

  /** Each octet weighs 256 times the one after it. */
  lemma MostSignificantFirst(a: byte, b: byte, c: byte, d: byte)
    ensures U16(a, b) == 0x100 * a + b
    ensures U32(a, b, c, d) == 0x100_0000 * a + 0x1_0000 * b + 0x100 * c + d
    ensures Be32(U32(a, b, c, d)) == [a, b, c, d]
  {
    Be32OfU32(a, b, c, d);
  }

  /** Reading octets and writing the value again gives the same octets. */
  lemma Be16OfU16(a: byte, b: byte)
    ensures Be16(U16(a, b)) == [a, b]
  {
  }

  lemma Be32OfU32(a: byte, b: byte, c: byte, d: byte)
    ensures Be32(U32(a, b, c, d)) == [a, b, c, d]
  {
    var n := U32(a, b, c, d);
    assert n / 0x1_0000 == U16(a, b) && n % 0x1_0000 == U16(c, d);
    Be16OfU16(a, b);
    Be16OfU16(c, d);
  }
}
