/**
The reader and writer of PARAM.SFO files.

A file is a header, an index of fixed-size entries, a table of NUL-terminated
keys padded to a multiple of four, and a table of data regions, each of the
size its entry reserves. The index points into both tables by offset. Keys are
the octets of their encoded text.
*/
module Sfo {
  import opened Common

  const MAGIC := 0x46535000
  const VERSION := 0x101
  const HEADER_LEN := 20
  const ENTRY_LEN := 16

  datatype Entry = Entry(key: seq<byte>, fmt: nat, dmax: nat, data: seq<byte>)

  datatype WriteResult = Written(bytes: seq<byte>) | ExceedsDmax | OutOfRange

  datatype ReadError = ShortHeader | BadMagic | ShortIndex | NoTerminator

  datatype ReadResult = Entries(entries: seq<Entry>) | Bad(error: ReadError)

  // ---------- little-endian fields ----------

  /** The value of octets, least significant first. */
  function Le(bs: seq<byte>): nat {
    if bs == [] then 0 else bs[0] + 256 * Le(bs[1..])
  }

  /** The octets of a value, least significant first, in a field of that width. */
  function ToLe(n: nat, width: nat): (bs: seq<byte>)
    ensures |bs| == width
  {
    if width == 0 then [] else [n % 256] + ToLe(n / 256, width - 1)
  }

  lemma LeOfToLe16(n: nat)
    requires Fits16(n)
    ensures Le(ToLe(n, 2)) == n
  {
    LeStep(n, 2);
    LeStep(n / 256, 1);
  }

  lemma LeOfToLe32(n: nat)
    requires Fits32(n)
    ensures Le(ToLe(n, 4)) == n
  {
    LeStep(n, 4);
    LeStep(n / 256, 3);
    LeStep(n / 256 / 256, 2);
    LeStep(n / 256 / 256 / 256, 1);
  }

  lemma LeStep(n: nat, width: nat)
    requires width > 0
    ensures Le(ToLe(n, width)) == n % 256 + 256 * Le(ToLe(n / 256, width - 1))
  {
    assert ToLe(n, width)[1..] == ToLe(n / 256, width - 1);
  }

  /** Each octet weighs 256 times the one before it. */
  lemma LeastSignificantFirst(bs: seq<byte>)
    ensures |bs| == 2 ==> Le(bs) == bs[0] + 0x100 * (bs[1] as int)
    ensures |bs| == 4 ==>
              Le(bs) == bs[0] + 0x100 * (bs[1] as int) + 0x1_0000 * (bs[2] as int) + 0x100_0000 * (bs[3] as int)
  {
    if |bs| == 2 {
      LeUnfolds(bs, bs[1..], bs[2..]);
    }
    if |bs| == 4 {
      LeUnfolds(bs, bs[1..], bs[2..]);
      LeUnfolds(bs[2..], bs[3..], bs[4..]);
    }
  }

  lemma LeUnfolds(bs: seq<byte>, rest: seq<byte>, rest2: seq<byte>)
    requires |bs| >= 2 && rest == bs[1..] && rest2 == bs[2..]
    ensures Le(bs) == bs[0] + 256 * (bs[1] + 256 * Le(rest2))
  {
    assert rest[1..] == rest2;
  }

  predicate Fits16(n: nat) { n < 0x1_0000 }

  predicate Fits32(n: nat) { n < 0x1_0000_0000 }

  // ---------- the tables ----------

  function Zeros(n: nat): (z: seq<byte>)
    ensures |z| == n && forall i | 0 <= i < n :: z[i] == 0
  {
    seq(n, _ => 0)
  }

  function KeyBytes(es: seq<Entry>): seq<byte> {
    if es == [] then [] else KeyBytes(Init(es)) + (Last(es).key + [0])
  }

  /** What brings a length up to a multiple of four. */
  function Padding(n: nat): (z: seq<byte>)
    ensures (n + |z|) % 4 == 0 && |z| < 4 && forall i | 0 <= i < |z| :: z[i] == 0
  {
    Zeros((4 - n % 4) % 4)
  }

  function KeyTable(es: seq<Entry>): (t: seq<byte>)
    ensures |t| % 4 == 0
  {
    KeyBytes(es) + Padding(|KeyBytes(es)|)
  }

  function Region(e: Entry): seq<byte>
    requires |e.data| <= e.dmax
  {
    e.data + Zeros(e.dmax - |e.data|)
  }

  /** No entry has more data than it reserves. */
  predicate WithinDmax(es: seq<Entry>) {
    forall i | 0 <= i < |es| :: |es[i].data| <= es[i].dmax
  }

  function DataTable(es: seq<Entry>): seq<byte>
    requires WithinDmax(es)
  {
    if es == [] then [] else DataTable(Init(es)) + Region(Last(es))
  }

  /** The fields of one index entry, in the order they are packed. */
  datatype Row = Row(keyOffset: nat, fmt: nat, len: nat, dmax: nat, dataOffset: nat)

  function RowOf(keyOffset: nat, e: Entry, dataOffset: nat): Row {
    Row(keyOffset, e.fmt, |e.data|, e.dmax, dataOffset)
  }

  predicate RowFits(r: Row) {
    Fits16(r.keyOffset) && Fits16(r.fmt) && Fits32(r.len) && Fits32(r.dmax) && Fits32(r.dataOffset)
  }

  function Unpack(bs: seq<byte>): Row
    requires |bs| == ENTRY_LEN
  {
    Row(Le(bs[0..2]), Le(bs[2..4]), Le(bs[4..8]), Le(bs[8..12]), Le(bs[12..16]))
  }

  function Pack(r: Row): (bs: seq<byte>)
    ensures |bs| == ENTRY_LEN
  {
    ToLe(r.keyOffset, 2) + ToLe(r.fmt, 2) + ToLe(r.len, 4) + ToLe(r.dmax, 4) + ToLe(r.dataOffset, 4)
  }

  lemma FiveParts(a: seq<byte>, b: seq<byte>, c: seq<byte>, d: seq<byte>, e: seq<byte>)
    requires |a| == |b| == 2 && |c| == |d| == |e| == 4
    ensures var s := a + b + c + d + e; s[0..2] == a && s[2..4] == b && s[4..8] == c && s[8..12] == d && s[12..16] == e
  {
  }

  lemma UnpackPacked(r: Row)
    requires RowFits(r)
    ensures Unpack(Pack(r)) == r
  {
    FiveParts(ToLe(r.keyOffset, 2), ToLe(r.fmt, 2), ToLe(r.len, 4), ToLe(r.dmax, 4), ToLe(r.dataOffset, 4));
    LeOfToLe16(r.keyOffset);
    LeOfToLe16(r.fmt);
    LeOfToLe32(r.len);
    LeOfToLe32(r.dmax);
    LeOfToLe32(r.dataOffset);
  }

  /** Every field of every index entry is in range. */
  predicate IndexFits(es: seq<Entry>)
    requires WithinDmax(es)
  {
    es == [] ||
    (&& IndexFits(Init(es))
     && RowFits(RowOf(|KeyBytes(Init(es))|, Last(es), |DataTable(Init(es))|)))
  }

  function Index(es: seq<Entry>): (ix: seq<byte>)
    requires WithinDmax(es) && IndexFits(es)
    ensures |ix| == 16 * |es|
  {
    if es == [] then []
    else Index(Init(es)) + Pack(RowOf(|KeyBytes(Init(es))|, Last(es), |DataTable(Init(es))|))
  }

  /** The index entry an entry gets: where its key and data begin among those before it. */
  function RowAt(es: seq<Entry>, i: nat): Row
    requires i < |es| && WithinDmax(es[..i])
  {
    RowOf(|KeyBytes(es[..i])|, es[i], |DataTable(es[..i])|)
  }

  function KeysAt(es: seq<Entry>): nat { HEADER_LEN + 16 * |es| }

  /** The data table begins at a multiple of four. */
  function DataAt(es: seq<Entry>): (n: nat)
    ensures n % 4 == 0
  {
    KeysAt(es) + |KeyTable(es)|
  }

  predicate HeaderFits(es: seq<Entry>) {
    Fits32(KeysAt(es)) && Fits32(DataAt(es)) && Fits32(|es|)
  }

  function Header(es: seq<Entry>): (h: seq<byte>)
    ensures |h| == HEADER_LEN
  {
    ToLe(MAGIC, 4) + ToLe(VERSION, 4) + ToLe(KeysAt(es), 4) + ToLe(DataAt(es), 4) + ToLe(|es|, 4)
  }

  predicate Writable(es: seq<Entry>) {
    WithinDmax(es) && IndexFits(es) && HeaderFits(es)
  }

  function File(es: seq<Entry>): seq<byte>
    requires Writable(es)
  {
    Header(es) + Index(es) + KeyTable(es) + DataTable(es)
  }

  // ---------- reading ----------

  /** A slice with both ends cut to the length, as Python slices. */
  function Slice(d: seq<byte>, lo: nat, hi: nat): seq<byte> {
    var a := if lo < |d| then lo else |d|;
    var b := if hi < |d| then hi else |d|;
    if a <= b then d[a..b] else []
  }

  function FindNul(d: seq<byte>, from: nat): (r: Option<nat>)
    ensures r.Some? ==> from <= r.value < |d| && d[r.value] == 0 && forall i | from <= i < r.value :: d[i] != 0
    ensures r.None? ==> forall i | from <= i < |d| :: d[i] != 0
    decreases |d| - from
  {
    if from >= |d| then None else if d[from] == 0 then Some(from) else FindNul(d, from + 1)
  }

  datatype ReadOne = Got(entry: Entry) | Failed(error: ReadError)

  function ReadEntry(d: seq<byte>, kofs: nat, dofs: nat, i: nat): ReadOne {
    var at := HEADER_LEN + 16 * i;
    if at + ENTRY_LEN > |d| then Failed(ShortIndex) else EntryFrom(d, kofs, dofs, Unpack(d[at..at + ENTRY_LEN]))
  }

  function EntryFrom(d: seq<byte>, kofs: nat, dofs: nat, row: Row): ReadOne {
    var end := FindNul(d, kofs + row.keyOffset);
    if end.None? then Failed(NoTerminator)
    else
      Got(Entry(d[kofs + row.keyOffset..end.value], row.fmt, row.dmax,
                Slice(d, dofs + row.dataOffset, dofs + row.dataOffset + row.len)))
  }

  /** Read the first `n` entries in order, up to the first that cannot be read. */
  function ReadEntries(read: nat -> ReadOne, n: nat): ReadResult {
    if n == 0 then Entries([])
    else
      match ReadEntries(read, n - 1)
      case Entries(es) =>
        (match read(n - 1)
         case Got(e) => Entries(es + [e])
         case Failed(why) => Bad(why))
      case bad => bad
  }

  function Reader(d: seq<byte>, kofs: nat, dofs: nat): nat -> ReadOne {
    (i: nat) => ReadEntry(d, kofs, dofs, i)
  }

  function Parse(d: seq<byte>): ReadResult {
    if |d| < HEADER_LEN then Bad(ShortHeader)
    else if Le(d[0..4]) != MAGIC then Bad(BadMagic)
    else ReadEntries(Reader(d, Le(d[8..12]), Le(d[12..16])), Le(d[16..20]))
  }

  // ---------- the loops ----------

  lemma {:induction false} FitsPrefix(es: seq<Entry>, n: nat)
    requires n <= |es| && WithinDmax(es) && IndexFits(es)
    ensures IndexFits(es[..n])
  {
    if n < |es| {
      TakeOfInit(es, n);
      FitsPrefix(Init(es), n);
    } else {
      TakeAll(es);
    }
  }

  /** The field of some index entry, or of the header, does not fit. */
  ghost predicate FieldTooBig(es: seq<Entry>) {
    !HeaderFits(es) || exists n | 0 <= n <= |es| :: WithinDmax(es[..n]) && !IndexFits(es[..n])
  }

  /** The table of keys and where each begins. */
  method PackKeys(es: seq<Entry>) returns (table: seq<byte>, offsets: seq<nat>)
    ensures table == KeyTable(es)
    ensures |offsets| == |es| && forall j | 0 <= j < |es| :: offsets[j] == |KeyBytes(es[..j])|
  {
    table, offsets := [], [];
    for i := 0 to |es|
      invariant table == KeyBytes(es[..i])
      invariant |offsets| == i && forall j | 0 <= j < i :: offsets[j] == |KeyBytes(es[..j])|
    {
      InitOfTake(es, i);
      offsets := offsets + [|table|];
      table := table + (es[i].key + [0]);
    }
    TakeAll(es);
    table := table + Padding(|table|);
  }

  /** What one more entry adds to the tables, when it has no more data than it reserves. */
  lemma TablesGrow(es: seq<Entry>, i: nat)
    requires i < |es| && WithinDmax(es[..i]) && |es[i].data| <= es[i].dmax && IndexFits(es[..i])
    ensures WithinDmax(es[..i + 1]) && DataTable(es[..i + 1]) == DataTable(es[..i]) + Region(es[i])
    ensures IndexFits(es[..i + 1]) <==> RowFits(RowAt(es, i))
    ensures IndexFits(es[..i + 1]) ==>
              Index(es[..i + 1]) == Index(es[..i]) + Pack(RowAt(es, i))
  {
    InitOfTake(es, i);
  }

  /** Writes exactly the files that can be read back, and says why it writes no other. */
  method WriteSfo(es: seq<Entry>) returns (r: WriteResult)
    ensures r.Written? <==> Writable(es)
    ensures r.Written? ==> r.bytes == File(es)
    ensures r.ExceedsDmax? ==> !WithinDmax(es)
    ensures r.OutOfRange? ==> FieldTooBig(es)
  {
    var keyTable, keyOffsets := PackKeys(es);
    var dataTable: seq<byte>, index: seq<byte> := [], [];
    for i := 0 to |es|
      invariant WithinDmax(es[..i]) && IndexFits(es[..i])
      invariant dataTable == DataTable(es[..i]) && index == Index(es[..i])
    {
      var e := es[i];
      if |e.data| > e.dmax {
        return ExceedsDmax;
      }
      TablesGrow(es, i);
      var row := RowOf(keyOffsets[i], e, |dataTable|);
      if !RowFits(row) {
        if Writable(es) {
          FitsPrefix(es, i + 1);
        }
        return OutOfRange;
      }
      index := index + Pack(row);
      dataTable := dataTable + Region(e);
    }
    TakeAll(es);
    if !HeaderFits(es) {
      return OutOfRange;
    }
    return Written(Header(es) + index + keyTable + dataTable);
  }

  lemma {:induction false} ErrorsStick(read: nat -> ReadOne, i: nat, n: nat)
    requires i <= n && !ReadEntries(read, i).Entries?
    ensures ReadEntries(read, n) == ReadEntries(read, i)
  {
    if i < n {
      ErrorsStick(read, i, n - 1);
    }
  }

  method ReadIndex(read: nat -> ReadOne, n: nat) returns (r: ReadResult)
    ensures r == ReadEntries(read, n)
  {
    var entries: seq<Entry> := [];
    for i := 0 to n
      invariant ReadEntries(read, i) == Entries(entries)
    {
      var one := read(i);
      if one.Failed? {
        ErrorsStick(read, i + 1, n);
        return Bad(one.error);
      }
      entries := entries + [one.entry];
    }
    return Entries(entries);
  }

  method ReadSfo(d: seq<byte>) returns (r: ReadResult)
    ensures r == Parse(d)
  {
    if |d| < HEADER_LEN {
      return Bad(ShortHeader);
    }
    if Le(d[0..4]) != MAGIC {
      return Bad(BadMagic);
    }
    r := ReadIndex(Reader(d, Le(d[8..12]), Le(d[12..16])), Le(d[16..20]));
  }

  // ---------- where things are ----------

  predicate HasAt(d: seq<byte>, at: nat, part: seq<byte>) {
    at + |part| <= |d| && d[at..at + |part|] == part
  }

  /** A part that stands in a table stands in the file, as far on as the table does. */
  lemma PartAt(before: seq<byte>, table: seq<byte>, after: seq<byte>, pre: nat, part: seq<byte>)
    requires HasAt(table, pre, part)
    ensures HasAt(before + table + after, |before| + pre, part)
  {
    assert (before + table + after)[|before|..|before| + |table|] == table;
  }

  lemma PartStays(table: seq<byte>, more: seq<byte>, pre: nat, part: seq<byte>)
    requires HasAt(table, pre, part)
    ensures HasAt(table + more, pre, part)
  {
    SliceOfAppend(table, more, pre, pre + |part|);
  }

  lemma PartLast(pre: seq<byte>, part: seq<byte>)
    ensures HasAt(pre + part, |pre|, part)
  {
  }

  lemma {:induction false} KeyInTable(es: seq<Entry>, i: nat)
    requires i < |es|
    ensures HasAt(KeyBytes(es), |KeyBytes(es[..i])|, es[i].key + [0])
  {
    TakeOfInit(es, i);
    if i == |es| - 1 {
      TakeAll(Init(es));
      PartLast(KeyBytes(Init(es)), es[i].key + [0]);
    } else {
      KeyInTable(Init(es), i);
      PartStays(KeyBytes(Init(es)), Last(es).key + [0], |KeyBytes(es[..i])|, es[i].key + [0]);
    }
  }

  lemma {:induction false} RegionInTable(es: seq<Entry>, i: nat)
    requires i < |es| && WithinDmax(es)
    ensures WithinDmax(es[..i]) && HasAt(DataTable(es), |DataTable(es[..i])|, Region(es[i]))
  {
    TakeOfInit(es, i);
    if i == |es| - 1 {
      TakeAll(Init(es));
      PartLast(DataTable(Init(es)), Region(es[i]));
    } else {
      RegionInTable(Init(es), i);
      PartStays(DataTable(Init(es)), Region(Last(es)), |DataTable(es[..i])|, Region(es[i]));
    }
  }

  lemma {:induction false} EntryInIndex(es: seq<Entry>, i: nat)
    requires i < |es| && WithinDmax(es) && IndexFits(es)
    ensures WithinDmax(es[..i]) && RowFits(RowAt(es, i))
    ensures HasAt(Index(es), 16 * i, Pack(RowAt(es, i)))
  {
    TakeOfInit(es, i);
    var packed := Pack(RowOf(|KeyBytes(Init(es))|, Last(es), |DataTable(Init(es))|));
    if i == |es| - 1 {
      TakeAll(Init(es));
      PartLast(Index(Init(es)), packed);
    } else {
      EntryInIndex(Init(es), i);
      PartStays(Index(Init(es)), packed, 16 * i, Pack(RowAt(es, i)));
    }
  }

  /** The index entry, the key and the data of an entry are all where the reader looks for them. */
  predicate Located(d: seq<byte>, kofs: nat, dofs: nat, i: nat, packed: seq<byte>, e: Entry, row: Row) {
    && row.fmt == e.fmt && row.len == |e.data| <= e.dmax == row.dmax
    && HasAt(d, HEADER_LEN + 16 * i, packed)
    && HasAt(d, kofs + row.keyOffset, e.key + [0])
    && HasAt(d, dofs + row.dataOffset, Region(e))
  }

  lemma FilePart(header: seq<byte>, index: seq<byte>, keys: seq<byte>, data: seq<byte>, pre: nat, part: seq<byte>)
    ensures HasAt(index, pre, part) ==> HasAt(header + index + keys + data, |header| + pre, part)
    ensures HasAt(keys, pre, part) ==> HasAt(header + index + keys + data, |header| + |index| + pre, part)
    ensures HasAt(data, pre, part) ==> HasAt(header + index + keys + data, |header| + |index| + |keys| + pre, part)
  {
    if HasAt(index, pre, part) {
      PartAt(header, index, keys, pre, part);
      PartStays(header + index + keys, data, |header| + pre, part);
    }
    if HasAt(keys, pre, part) {
      PartAt(header + index, keys, data, pre, part);
    }
    if HasAt(data, pre, part) {
      PartAt(header + index + keys, data, [], pre, part);
      Empty(header + index + keys + data);
    }
  }

  /** A part of one of the tables, as a part of the file. */
  lemma InFile(es: seq<Entry>, pre: nat, part: seq<byte>)
    requires Writable(es)
    ensures HasAt(Index(es), pre, part) ==> HasAt(File(es), HEADER_LEN + pre, part)
    ensures HasAt(KeyTable(es), pre, part) ==> HasAt(File(es), KeysAt(es) + pre, part)
    ensures HasAt(DataTable(es), pre, part) ==> HasAt(File(es), DataAt(es) + pre, part)
  {
    FilePart(Header(es), Index(es), KeyTable(es), DataTable(es), pre, part);
  }

  lemma KeyInPaddedTable(es: seq<Entry>, i: nat)
    requires i < |es|
    ensures HasAt(KeyTable(es), |KeyBytes(es[..i])|, es[i].key + [0])
  {
    KeyInTable(es, i);
    PartStays(KeyBytes(es), Padding(|KeyBytes(es)|), |KeyBytes(es[..i])|, es[i].key + [0]);
  }

  lemma KeyLocated(es: seq<Entry>, i: nat)
    requires Writable(es) && i < |es|
    ensures HasAt(File(es), KeysAt(es) + |KeyBytes(es[..i])|, es[i].key + [0])
  {
    KeyInPaddedTable(es, i);
    InFile(es, |KeyBytes(es[..i])|, es[i].key + [0]);
  }

  lemma RegionLocated(es: seq<Entry>, i: nat)
    requires Writable(es) && i < |es|
    ensures WithinDmax(es[..i]) && HasAt(File(es), DataAt(es) + |DataTable(es[..i])|, Region(es[i]))
  {
    RegionInTable(es, i);
    InFile(es, |DataTable(es[..i])|, Region(es[i]));
  }

  lemma RowLocated(es: seq<Entry>, i: nat)
    requires Writable(es) && i < |es|
    ensures WithinDmax(es[..i]) && RowFits(RowAt(es, i)) && HasAt(File(es), HEADER_LEN + 16 * i, Pack(RowAt(es, i)))
  {
    EntryInIndex(es, i);
    InFile(es, 16 * i, Pack(RowAt(es, i)));
  }

  lemma EntryLocated(es: seq<Entry>, i: nat)
    requires Writable(es) && i < |es|
    ensures WithinDmax(es[..i])
    ensures RowFits(RowAt(es, i))
    ensures Located(File(es), KeysAt(es), DataAt(es), i, Pack(RowAt(es, i)), es[i], RowAt(es, i))
  {
    RowLocated(es, i);
    KeyLocated(es, i);
    RegionLocated(es, i);
  }

  // ---------- the round trip ----------

  predicate NulFree(key: seq<byte>) {
    0 !in key
  }

  predicate KeysNulFree(es: seq<Entry>) {
    forall i | 0 <= i < |es| :: NulFree(es[i].key)
  }

  /** What is read for a key: everything before its first NUL. */
  function UpToNul(key: seq<byte>): (k: seq<byte>)
    ensures NulFree(k) && k <= key && (k == key <==> NulFree(key))
    ensures |k| < |key| ==> key[|k|] == 0
  {
    if key == [] || key[0] == 0 then [] else [key[0]] + UpToNul(key[1..])
  }

  lemma KeyReads(d: seq<byte>, from: nat, key: seq<byte>)
    requires HasAt(d, from, key + [0])
    ensures FindNul(d, from) == Some(from + |UpToNul(key)|)
    ensures d[from..from + |UpToNul(key)|] == UpToNul(key)
  {
    var part, k := key + [0], UpToNul(key);
    assert forall j | 0 <= j < |part| :: part[j] == d[from + j];
    assert part[|k|] == 0;
    assert forall j | from <= j < from + |k| :: d[j] == part[j - from] == k[j - from];
    assert d[from..from + |k|] == k;
  }

  lemma DataReads(d: seq<byte>, from: nat, e: Entry)
    requires |e.data| <= e.dmax && HasAt(d, from, Region(e))
    ensures Slice(d, from, from + |e.data|) == e.data
  {
    assert Region(e)[..|e.data|] == e.data;
  }

  /** What reading gives back for an entry. */
  function Cut(e: Entry): Entry { e.(key := UpToNul(e.key)) }

  function CutAll(es: seq<Entry>): (cs: seq<Entry>)
    ensures |cs| == |es| && forall i | 0 <= i < |es| :: cs[i] == Cut(es[i])
  {
    if es == [] then [] else CutAll(Init(es)) + [Cut(Last(es))]
  }

  lemma EntryReads(d: seq<byte>, kofs: nat, dofs: nat, e: Entry, row: Row)
    requires row.fmt == e.fmt && row.len == |e.data| <= e.dmax == row.dmax
    requires HasAt(d, kofs + row.keyOffset, e.key + [0]) && HasAt(d, dofs + row.dataOffset, Region(e))
    ensures EntryFrom(d, kofs, dofs, row) == Got(Cut(e))
  {
    KeyReads(d, kofs + row.keyOffset, e.key);
    DataReads(d, dofs + row.dataOffset, e);
  }

  lemma SliceOf(d: seq<byte>, at: nat, part: seq<byte>)
    requires HasAt(d, at, part)
    ensures at + |part| <= |d| && d[at..at + |part|] == part
  {
  }

  lemma LocatedReads(d: seq<byte>, kofs: nat, dofs: nat, i: nat, packed: seq<byte>, e: Entry, row: Row)
    requires |packed| == ENTRY_LEN && Unpack(packed) == row && Located(d, kofs, dofs, i, packed, e, row)
    ensures ReadEntry(d, kofs, dofs, i) == Got(Cut(e))
  {
    SliceOf(d, HEADER_LEN + 16 * i, packed);
    EntryReads(d, kofs, dofs, e, row);
  }

  lemma {:induction false} AllRead(read: nat -> ReadOne, es: seq<Entry>)
    requires forall i: nat | i < |es| :: read(i) == Got(Cut(es[i]))
    ensures ReadEntries(read, |es|) == Entries(CutAll(es))
  {
    if es != [] {
      var pre := Init(es);
      assert forall i | 0 <= i < |pre| :: pre[i] == es[i];
      AllRead(read, pre);
    }
  }

  lemma HeaderReads(es: seq<Entry>, rest: seq<byte>)
    requires HeaderFits(es)
    ensures var d := Header(es) + rest;
            && Le(d[0..4]) == MAGIC && Le(d[8..12]) == KeysAt(es)
            && Le(d[12..16]) == DataAt(es) && Le(d[16..20]) == |es|
  {
    FiveFields(ToLe(MAGIC, 4), ToLe(VERSION, 4), ToLe(KeysAt(es), 4), ToLe(DataAt(es), 4), ToLe(|es|, 4), rest);
    LeOfToLe32(MAGIC);
    LeOfToLe32(KeysAt(es));
    LeOfToLe32(DataAt(es));
    LeOfToLe32(|es|);
  }

  lemma FiveFields(a: seq<byte>, b: seq<byte>, c: seq<byte>, d: seq<byte>, e: seq<byte>, rest: seq<byte>)
    requires |a| == |b| == |c| == |d| == |e| == 4
    ensures var s := a + b + c + d + e + rest;
            s[0..4] == a && s[4..8] == b && s[8..12] == c && s[12..16] == d && s[16..20] == e
  {
  }

  lemma FileStarts(header: seq<byte>, index: seq<byte>, keys: seq<byte>, data: seq<byte>)
    ensures header + index + keys + data == header + (index + keys + data)
  {
  }

  lemma EntryReadBack(es: seq<Entry>, i: nat)
    requires Writable(es) && i < |es|
    ensures ReadEntry(File(es), KeysAt(es), DataAt(es), i) == Got(Cut(es[i]))
  {
    EntryLocated(es, i);
    UnpackPacked(RowAt(es, i));
    LocatedReads(File(es), KeysAt(es), DataAt(es), i, Pack(RowAt(es, i)), es[i], RowAt(es, i));
  }

  lemma SubSlice(d: seq<byte>, at: nat, part: seq<byte>, lo: nat, hi: nat)
    requires HasAt(d, at, part) && lo <= hi <= |part|
    ensures at + hi <= |d| && d[at + lo..at + hi] == part[lo..hi]
  {
    assert forall i | lo <= i < hi :: part[i] == d[at + i];
  }

  lemma RowParts(d: seq<byte>, at: nat, packed: seq<byte>, r: Row)
    requires |packed| == ENTRY_LEN && Unpack(packed) == r && HasAt(d, at, packed)
    ensures at + 16 <= |d|
    ensures && Le(d[at..at + 2]) == r.keyOffset && Le(d[at + 2..at + 4]) == r.fmt && Le(d[at + 4..at + 8]) == r.len
            && Le(d[at + 8..at + 12]) == r.dmax && Le(d[at + 12..at + 16]) == r.dataOffset
  {
    SubSlice(d, at, packed, 0, 2);
    SubSlice(d, at, packed, 2, 4);
    SubSlice(d, at, packed, 4, 8);
    SubSlice(d, at, packed, 8, 12);
    SubSlice(d, at, packed, 12, 16);
  }

  /** Where an entry's fields stand in a file: its index at octet `at`, the tables at `kofs` and `dofs`. */
  ghost predicate LaidOut(d: seq<byte>, at: nat, kofs: nat, dofs: nat, e: Entry) {
    && at + 16 <= |d| && |e.data| <= e.dmax
    && Le(d[at + 2..at + 4]) == e.fmt && Le(d[at + 4..at + 8]) == |e.data| && Le(d[at + 8..at + 12]) == e.dmax
    && HasAt(d, kofs + Le(d[at..at + 2]), e.key + [0])
    && HasAt(d, dofs + Le(d[at + 12..at + 16]), e.data + Zeros(e.dmax - |e.data|))
  }

  lemma LocatedLaidOut(d: seq<byte>, kofs: nat, dofs: nat, i: nat, packed: seq<byte>, e: Entry, row: Row)
    requires |packed| == ENTRY_LEN && Unpack(packed) == row && Located(d, kofs, dofs, i, packed, e, row)
    ensures LaidOut(d, 20 + 16 * i, kofs, dofs, e)
  {
    RowParts(d, 20 + 16 * i, packed, row);
  }

  /**
  The file, octet by octet: sixteen octets of index for each entry, from octet
  twenty on, with the key's offset, the format, the length, the reservation and
  the data's offset; the key with its NUL and the data padded with NULs at
  those offsets into their tables.
  */
  lemma Layout(es: seq<Entry>, i: nat)
    requires Writable(es) && i < |es|
    ensures LaidOut(File(es), 20 + 16 * i, KeysAt(es), DataAt(es), es[i])
  {
    EntryLocated(es, i);
    UnpackPacked(RowAt(es, i));
    LocatedLaidOut(File(es), KeysAt(es), DataAt(es), i, Pack(RowAt(es, i)), es[i], RowAt(es, i));
  }

  /** Its first twenty octets: the magic, the version, where the tables begin, and the number of entries. */
  lemma HeaderLayout(es: seq<Entry>)
    requires Writable(es)
    ensures var d := File(es);
            && |d| >= 20 && d[0..4] == [0x00, 0x50, 0x53, 0x46] && d[4..8] == [0x01, 0x01, 0x00, 0x00]
            && Le(d[8..12]) == 20 + 16 * |es| && Le(d[12..16]) == 20 + 16 * |es| + |KeyTable(es)|
            && Le(d[16..20]) == |es|
  {
    var rest := Index(es) + KeyTable(es) + DataTable(es);
    FileStarts(Header(es), Index(es), KeyTable(es), DataTable(es));
    HeaderReads(es, rest);
    FiveFields(ToLe(MAGIC, 4), ToLe(VERSION, 4), ToLe(KeysAt(es), 4), ToLe(DataAt(es), 4), ToLe(|es|, 4), rest);
    MagicOctets();
  }

  lemma MagicOctets()
    ensures ToLe(MAGIC, 4) == [0x00, 0x50, 0x53, 0x46] && ToLe(VERSION, 4) == [0x01, 0x01, 0x00, 0x00]
  {
    assert ToLe(0x46, 1) == [0x46] && ToLe(0x4653, 2) == [0x53, 0x46] && ToLe(0x465350, 3) == [0x50, 0x53, 0x46];
    assert ToLe(0, 1) == [0] && ToLe(0, 2) == [0, 0] && ToLe(1, 3) == [1, 0, 0];
  }

  /** A written file reads back as the same entries, with each key up to its first NUL. */
  lemma ReadBack(es: seq<Entry>)
    requires Writable(es)
    ensures Parse(File(es)) == Entries(CutAll(es))
  {
    var read := Reader(File(es), KeysAt(es), DataAt(es));
    forall i: nat | i < |es|
      ensures read(i) == Got(Cut(es[i]))
    {
      EntryReadBack(es, i);
    }
    AllRead(read, es);
    FileStarts(Header(es), Index(es), KeyTable(es), DataTable(es));
    HeaderReads(es, Index(es) + KeyTable(es) + DataTable(es));
  }

  /** The round trip is exact if and only if no key contains a NUL. */
  lemma RoundTripIff(es: seq<Entry>)
    requires Writable(es)
    ensures Parse(File(es)) == Entries(es) <==> KeysNulFree(es)
  {
    ReadBack(es);
    if i :| 0 <= i < |es| && !NulFree(es[i].key) {
      assert CutAll(es)[i].key != es[i].key;
    } else {
      assert CutAll(es) == es;
    }
  }

  lemma {:induction false} ReadKeysNulFree(read: nat -> ReadOne, n: nat)
    requires forall i: nat :: read(i).Got? ==> NulFree(read(i).entry.key)
    ensures var r := ReadEntries(read, n); r.Entries? ==> KeysNulFree(r.entries)
  {
    if n > 0 {
      ReadKeysNulFree(read, n - 1);
    }
  }

  lemma ParsedKeysNulFree(d: seq<byte>)
    requires Parse(d).Entries?
    ensures KeysNulFree(Parse(d).entries)
  {
    var read := Reader(d, Le(d[8..12]), Le(d[12..16]));
    ReadKeysNulFree(read, Le(d[16..20]));
  }

  /** Whatever any file gave when read, if it can be written at all then reading it again gives the same. */
  lemma RereadIsStable(d: seq<byte>)
    requires Parse(d).Entries?
    ensures Writable(Parse(d).entries) ==> Parse(File(Parse(d).entries)) == Parse(d)
  {
    if Writable(Parse(d).entries) {
      ParsedKeysNulFree(d);
      RoundTripIff(Parse(d).entries);
    }
  }

  /**
  What is read back from a file can be written again exactly if it can be written at all, and
  then reads the same.
  */
  method Rewrite(d: seq<byte>) returns (r: WriteResult, again: ReadResult)
    ensures Parse(d).Bad? ==> again == Parse(d)
    ensures Parse(d).Entries? ==> (r.Written? <==> Writable(Parse(d).entries))
    ensures Parse(d).Entries? && r.Written? ==> again == Parse(d) == Parse(r.bytes)
    ensures Parse(d).Entries? && r.ExceedsDmax? ==> !WithinDmax(Parse(d).entries)
    ensures Parse(d).Entries? && r.OutOfRange? ==> FieldTooBig(Parse(d).entries)
  {
    again := ReadSfo(d);
    r := OutOfRange;
    if again.Entries? {
      r := WriteSfo(again.entries);
      if r.Written? {
        RereadIsStable(d);
        again := ReadSfo(r.bytes);
      }
    }
  }

  /** How much of the data table comes before each region. */
  lemma {:induction false} DataTableGrows(es: seq<Entry>, i: nat)
    requires WithinDmax(es) && i < |es|
    ensures WithinDmax(es[..i]) && |DataTable(es[..i])| + es[i].dmax <= |DataTable(es)|
  {
    TakeOfInit(es, i);
    if i == |es| - 1 {
      TakeAll(Init(es));
    } else {
      DataTableGrows(Init(es), i);
    }
  }

  /** The data regions of a file follow one another without overlap, and the last ends with the file. */
  lemma RegionsDisjoint(es: seq<Entry>, i: nat, j: nat)
    requires WithinDmax(es) && i < j < |es|
    ensures WithinDmax(es[..i]) && WithinDmax(es[..j])
    ensures |DataTable(es[..i])| + es[i].dmax <= |DataTable(es[..j])|
    ensures |DataTable(es[..j])| + es[j].dmax <= |DataTable(es)|
  {
    DataTableGrows(es, j);
    TakeOfTake(es, i, j);
    DataTableGrows(es[..j], i);
  }

  // ---------- editing ----------

  /** The entries with a new value at one of them, the first of its name. */
  ghost predicate EditedAt(es: seq<Entry>, i: nat, key: seq<byte>, value: seq<byte>, edited: seq<Entry>) {
    && i < |es| && es[i].key == key && (forall j | 0 <= j < i :: es[j].key != key)
    && edited == es[i := es[i].(data := value + [0])]
  }

  /** Give the first entry of that name a new text value, with its terminator; nothing when there is none. */
  method SetStr(es: seq<Entry>, key: seq<byte>, value: seq<byte>) returns (r: Option<seq<Entry>>)
    ensures r.None? <==> forall i | 0 <= i < |es| :: es[i].key != key
    ensures r.Some? ==> exists i: nat :: EditedAt(es, i, key, value, r.value)
  {
    for i := 0 to |es|
      invariant forall j | 0 <= j < i :: es[j].key != key
    {
      if es[i].key == key {
        assert EditedAt(es, i, key, value, es[i := es[i].(data := value + [0])]);
        return Some(es[i := es[i].(data := value + [0])]);
      }
    }
    return None;
  }

  datatype CloneResult =
    | Cloned(bytes: seq<byte>) | Unreadable(error: ReadError) | NoSuchKey | Unwritable(why: WriteResult)

  /**
  The whole job of the script for one key: read a reference file, set a value,
  write it. What is read from the result is the reference with that value.
  */
  method CloneWith(reference: seq<byte>, key: seq<byte>, value: seq<byte>) returns (r: CloneResult)
    ensures r.Unreadable? <==> Parse(reference).Bad?
    ensures r.Unreadable? ==> Parse(reference) == Bad(r.error)
    ensures r.NoSuchKey? <==>
            && Parse(reference).Entries?
            && forall i | 0 <= i < |Parse(reference).entries| :: Parse(reference).entries[i].key != key
    ensures r.Cloned? ==>
              Parse(reference).Entries? && Parse(r.bytes).Entries?
              && exists i: nat :: EditedAt(Parse(reference).entries, i, key, value, Parse(r.bytes).entries)
    ensures r.Unwritable? ==>
              !r.why.Written? && Parse(reference).Entries?
              && exists i: nat, edited :: EditedAt(Parse(reference).entries, i, key, value, edited) && !Writable(edited)
  {
    var got := ReadSfo(reference);
    if got.Bad? {
      return Unreadable(got.error);
    }
    var edited := SetStr(got.entries, key, value);
    if edited.None? {
      return NoSuchKey;
    }
    ghost var i: nat :| EditedAt(got.entries, i, key, value, edited.value);
    var written := WriteSfo(edited.value);
    if !written.Written? {
      return Unwritable(written);
    }
    ParsedKeysNulFree(reference);
    assert KeysNulFree(edited.value);
    RoundTripIff(edited.value);
    return Cloned(written.bytes);
  }
}
