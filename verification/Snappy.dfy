/** The Snappy block decoder of deploy/logs/loki-standin.py, and a printer of the Snappy
    compressed format description that it inverts. */
module Snappy {
  import opened Base

  type Byte = b: int | 0 <= b < 256

  // ---- byte strings the way Python slices them ------------------------------------------------

  function Take(s: seq<Byte>, n: nat): seq<Byte> { if n <= |s| then s[..n] else s }

  function Drop(s: seq<Byte>, n: nat): (r: seq<Byte>)
    ensures |r| <= |s| && (0 < n && s != [] ==> |r| < |s|)
  {
    if n <= |s| then s[n..] else []
  }

  lemma DropTwice(s: seq<Byte>, a: nat, b: nat)
    ensures Drop(Drop(s, a), b) == Drop(s, a + b)
  {}

  /** int.from_bytes(s, "little") */
  function FromLittle(s: seq<Byte>): (n: nat) { if s == [] then 0 else s[0] + 256 * FromLittle(s[1..]) }

  // ---- the decoder as a function of the bytes not yet read --------------------------------------

  datatype Progress = Progress(rest: seq<Byte>, out: seq<Byte>)

  /** out[-offset]: an offset of zero reads out[0]. */
  function ReadBack(out: seq<Byte>, offset: nat): Option<Byte> {
    if offset == 0 then (if out == [] then None else Some(out[0]))
    else if offset <= |out| then Some(out[|out| - offset])
    else None
  }

  /** The copy loop; None where it runs into an index error. */
  function CopyLoop(out: seq<Byte>, offset: nat, length: nat): Option<seq<Byte>>
    decreases length
  {
    if length == 0 then Some(out)
    else
      match ReadBack(out, offset)
      case None => None
      case Some(b) => CopyLoop(out + [b], offset, length - 1)
  }

  function AfterCopy(out: seq<Byte>, offset: nat, length: nat, rest: seq<Byte>): Option<Progress> {
    match CopyLoop(out, offset, length)
    case None => None
    case Some(out') => Some(Progress(rest, out'))
  }

  function LiteralLength(tag: Byte, rest: seq<Byte>): nat {
    if tag / 4 >= 60 then FromLittle(Take(rest, tag / 4 - 59)) + 1 else tag / 4 + 1
  }

  function LengthWidth(tag: Byte): nat { if tag / 4 >= 60 then tag / 4 - 59 else 0 }

  /** One turn of the main loop. */
  function ReadElement(data: seq<Byte>, out: seq<Byte>): (p: Option<Progress>)
    requires data != []
    ensures p.Some? ==> |p.value.rest| < |data|
  {
    var tag := data[0] as int;
    var rest := data[1..];
    if tag % 4 == 0 then Some(ReadBytes(Drop(rest, LengthWidth(tag)), LiteralLength(tag, rest), out))
    else if tag % 4 == 1 then
      if rest == [] then None
      else AfterCopy(out, tag / 32 * 256 + rest[0], tag / 4 % 8 + 4, Drop(rest, 1))
    else ReadWide(tag, rest, out, if tag % 4 == 2 then 2 else 4)
  }

  function ReadBytes(body: seq<Byte>, length: nat, out: seq<Byte>): (p: Progress)
    ensures |p.rest| <= |body|
  {
    Progress(Drop(body, length), out + Take(body, length))
  }

  function ReadWide(tag: Byte, rest: seq<Byte>, out: seq<Byte>, width: nat): (p: Option<Progress>)
    ensures p.Some? ==> |p.value.rest| <= |rest|
  {
    AfterCopy(out, FromLittle(Take(rest, width)), tag / 4 + 1, Drop(rest, width))
  }

  function ReadElements(data: seq<Byte>, out: seq<Byte>): Option<seq<Byte>>
    decreases |data|
  {
    if data == [] then Some(out)
    else
      match ReadElement(data, out)
      case None => None
      case Some(p) => ReadElements(p.rest, p.out)
  }

  /** The bytes after the length preamble. */
  function SkipPreamble(data: seq<Byte>): Option<seq<Byte>> {
    if data == [] then None else if data[0] < 128 then Some(data[1..]) else SkipPreamble(data[1..])
  }

  function Decoded(data: seq<Byte>): Option<seq<Byte>> {
    match SkipPreamble(data)
    case None => None
    case Some(rest) => ReadElements(rest, [])
  }

  // ---- the decoder as it is written ---------------------------------------------------------------

  method FromBytes(s: seq<Byte>) returns (n: nat)
    ensures n == FromLittle(s)
  {
    n := 0;
    var i := |s|;
    while i > 0
      invariant 0 <= i <= |s| && n == FromLittle(s[i..])
    {
      i := i - 1;
      assert s[i..][1..] == s[i + 1..];
      n := s[i] + 256 * n;
    }
    assert s[0..] == s;
  }

  /** data[pos:pos + n] */
  function Slice(data: seq<Byte>, pos: nat, n: nat): seq<Byte> { Take(Drop(data, pos), n) }

  method CopyBack(start: seq<Byte>, offset: nat, length: nat) returns (r: Option<seq<Byte>>)
    ensures r == CopyLoop(start, offset, length)
  {
    var out := start;
    for i := 0 to length
      invariant CopyLoop(start, offset, length) == CopyLoop(out, offset, length - i)
    {
      if offset == 0 {
        if out == [] { return None; }
        out := out + [out[0]];
      } else {
        if offset > |out| { return None; }
        out := out + [out[|out| - offset]];
      }
    }
    return Some(out);
  }

  lemma DropOne(data: seq<Byte>, pos: nat)
    requires pos < |data|
    ensures Drop(data, pos) != [] && Drop(data, pos)[0] == data[pos]
    ensures Drop(data, pos)[1..] == Drop(data, pos + 1)
  {}

  method ReadLength(data: seq<Byte>, start: nat, tag: Byte) returns (pos: nat, length: nat)
    ensures length == LiteralLength(tag, Drop(data, start)) && start <= pos
    ensures Drop(data, pos) == Drop(Drop(data, start), LengthWidth(tag))
  {
    pos, length := start, tag / 4;
    if length >= 60 {
      var extra := length - 59;
      length := FromBytes(Slice(data, pos, extra));
      DropTwice(data, pos, extra);
      pos := pos + extra;
    }
    length := length + 1;
  }

  lemma SliceReadsBytes(data: seq<Byte>, pos: nat, length: nat, out: seq<Byte>)
    ensures ReadBytes(Drop(data, pos), length, out)
            == Progress(Drop(data, pos + length), out + Slice(data, pos, length))
  {
    DropTwice(data, pos, length);
  }

  method ReadLiteral(data: seq<Byte>, start: nat, tag: Byte, before: seq<Byte>)
    returns (pos: nat, out: seq<Byte>)
    ensures start < pos
    ensures var rest := Drop(data, start);
      Progress(Drop(data, pos), out)
      == ReadBytes(Drop(rest, LengthWidth(tag)), LiteralLength(tag, rest), before)
  {
    var length;
    pos, length := ReadLength(data, start, tag);
    SliceReadsBytes(data, pos, length, before);
    out := before + Slice(data, pos, length);
    pos := pos + length;
  }

  method ReadWideCopy(data: seq<Byte>, start: nat, width: nat) returns (pos: nat, offset: nat)
    ensures pos == start + width && Drop(data, pos) == Drop(Drop(data, start), width)
    ensures offset == FromLittle(Take(Drop(data, start), width))
  {
    offset := FromBytes(Slice(data, start, width));
    DropTwice(data, start, width);
    pos := start + width;
  }

  /** The body of the main loop. */
  method Turn(data: seq<Byte>, start: nat, before: seq<Byte>) returns (ok: bool, pos: nat, out: seq<Byte>)
    requires start < |data|
    ensures start < pos
    ensures ReadElement(Drop(data, start), before) == if ok then Some(Progress(Drop(data, pos), out)) else None
  {
    DropOne(data, start);
    var tag := data[start];
    pos, out := start + 1, before;
    var kind := tag % 4;
    if kind == 0 {
      pos, out := ReadLiteral(data, pos, tag, out);
      return true, pos, out;
    }
    var length: nat, offset: nat;
    if kind == 1 {
      length := tag / 4 % 8 + 4;
      if pos >= |data| { return false, pos, out; }
      offset := (tag as int) / 32 * 256 + data[pos];
      DropTwice(data, pos, 1);
      pos := pos + 1;
    } else {
      length := tag / 4 + 1;
      pos, offset := ReadWideCopy(data, pos, if kind == 2 then 2 else 4);
    }
    var copied := CopyBack(out, offset, length);
    if copied.None? { return false, pos, out; }
    return true, pos, copied.value;
  }

  /** Skips the uncompressed length, a varint the decoder does not need. */
  method SkipLength(data: seq<Byte>) returns (pos: Option<nat>)
    ensures pos.None? ==> SkipPreamble(data).None?
    ensures pos.Some? ==> SkipPreamble(data) == Some(Drop(data, pos.value))
  {
    var i: nat := 0;
    while i < |data| && data[i] >= 128
      invariant i <= |data| && SkipPreamble(data) == SkipPreamble(data[i..])
    {
      assert data[i..][1..] == data[i + 1..];
      i := i + 1;
    }
    if i == |data| { return None; }
    assert data[i..][1..] == data[i + 1..];
    return Some(i + 1);
  }

  /** `snappy_decompress`; None stands for the index error. */
  method SnappyDecompress(data: seq<Byte>) returns (r: Option<seq<Byte>>)
    ensures r == Decoded(data)
  {
    var first := SkipLength(data);
    if first.None? { return None; }
    var pos := first.value;
    var out: seq<Byte> := [];
    while pos < |data|
      invariant Decoded(data) == ReadElements(Drop(data, pos), out)
      decreases |data| - pos
    {
      var ok, pos', out' := Turn(data, pos, out);
      if !ok { return None; }
      pos, out := pos', out';
    }
    return Some(out);
  }

  // ---- the format ---------------------------------------------------------------------------------

  /** The elements of sections 2.1 and 2.2: a literal carries the number of extra length bytes
      (0 for the short form), a copy comes in three forms. */
  datatype Element =
    | Literal(bytes: seq<Byte>, width: nat)
    | CopyOne(length: nat, offset: nat)
    | CopyTwo(length: nat, offset: nat)
    | CopyFour(length: nat, offset: nat)

  function Power256(w: nat): nat { if w == 0 then 1 else 256 * Power256(w - 1) }

  /** Little-endian, in w bytes. */
  function ToLittle(n: nat, w: nat): (s: seq<Byte>)
    ensures |s| == w
  {
    if w == 0 then [] else [n % 256] + ToLittle(n / 256, w - 1)
  }

  /** What the format allows after so many bytes of output. */
  predicate Allowed(e: Element, produced: nat) {
    match e
    case Literal(bytes, width) =>
      1 <= |bytes| && (if width == 0 then |bytes| <= 60 else width <= 4 && |bytes| - 1 < Power256(width))
    case CopyOne(length, offset) => 4 <= length <= 11 && 1 <= offset <= produced && offset < 2048
    case CopyTwo(length, offset) => 1 <= length <= 64 && 1 <= offset <= produced && offset < 0x1_0000
    case CopyFour(length, offset) => 1 <= length <= 64 && 1 <= offset <= produced && offset < 0x1_0000_0000
  }

  function Printed(e: Element, produced: nat): seq<Byte> requires Allowed(e, produced) {
    match e
    case Literal(bytes, width) =>
      (if width == 0 then [(|bytes| - 1) * 4] else [(59 + width) * 4] + ToLittle(|bytes| - 1, width)) + bytes
    case CopyOne(length, offset) => [1 + (length - 4) * 4 + offset / 256 * 32, offset % 256]
    case CopyTwo(length, offset) => [2 + (length - 1) * 4] + ToLittle(offset, 2)
    case CopyFour(length, offset) => [3 + (length - 1) * 4] + ToLittle(offset, 4)
  }

  /** A copy repeats what stands `offset` bytes back, byte by byte, so it may run into itself. */
  function Repeat(out: seq<Byte>, offset: nat, length: nat): (r: seq<Byte>)
    requires 1 <= offset <= |out|
    ensures |r| == |out| + length && r[..|out|] == out
  {
    if length == 0 then out
    else
      var before := Repeat(out, offset, length - 1);
      before + [before[|before| - offset]]
  }

  function Expanded(e: Element, out: seq<Byte>): (r: seq<Byte>)
    requires Allowed(e, |out|)
  {
    match e
    case Literal(bytes, _) => out + bytes
    case CopyOne(length, offset) => Repeat(out, offset, length)
    case CopyTwo(length, offset) => Repeat(out, offset, length)
    case CopyFour(length, offset) => Repeat(out, offset, length)
  }

  ghost predicate AllAllowed(es: seq<Element>, out: seq<Byte>)
    decreases |es|
  {
    es != [] ==> Allowed(es[0], |out|) && AllAllowed(es[1..], Expanded(es[0], out))
  }

  ghost function Print(es: seq<Element>, out: seq<Byte>): seq<Byte>
    requires AllAllowed(es, out)
    decreases |es|
  {
    if es == [] then [] else Printed(es[0], |out|) + Print(es[1..], Expanded(es[0], out))
  }

  ghost function Expansion(es: seq<Element>, out: seq<Byte>): seq<Byte>
    requires AllAllowed(es, out)
    decreases |es|
  {
    if es == [] then out else Expansion(es[1..], Expanded(es[0], out))
  }

  /** The length preamble of section 1, a little-endian base-128 number. */
  function Varint(n: nat): seq<Byte> { if n < 128 then [n] else [128 + n % 128] + Varint(n / 128) }

  // ---- the round trip -------------------------------------------------------------------------------

  /** From `start` on, every byte equals the one `offset` before it. */
  ghost predicate Periodic(s: seq<Byte>, start: nat, offset: nat) requires offset <= start {
    forall k :: start <= k < |s| ==> s[k] == s[k - offset]
  }

  lemma PeriodicGrows(s: seq<Byte>, start: nat, offset: nat)
    requires 1 <= offset <= start <= |s| && Periodic(s, start, offset)
    ensures Periodic(s + [s[|s| - offset]], start, offset)
  {}

  /** A copy is the one extension of the output in which every new byte equals the one `offset`
      before it, also where the copy overlaps what it writes. */
  lemma {:induction false} CopyRepeats(out: seq<Byte>, offset: nat, length: nat)
    requires 1 <= offset <= |out|
    ensures Periodic(Repeat(out, offset, length), |out|, offset)
  {
    if length > 0 {
      CopyRepeats(out, offset, length - 1);
      PeriodicGrows(Repeat(out, offset, length - 1), |out|, offset);
    }
  }

  lemma {:induction false} CopyIsUnique(out: seq<Byte>, offset: nat, length: nat, r: seq<Byte>)
    requires 1 <= offset <= |out| && |r| == |out| + length && r[..|out|] == out && Periodic(r, |out|, offset)
    ensures r == Repeat(out, offset, length)
  {
    if length > 0 {
      var before := r[..|r| - 1];
      assert before[..|out|] == out;
      forall k | |out| <= k < |before| ensures before[k] == before[k - offset] { assert r[k] == r[k - offset]; }
      CopyIsUnique(out, offset, length - 1, before);
      assert r == before + [before[|before| - offset]];
    } else {
      assert r == r[..|out|];
    }
  }

  lemma {:induction false} CopyLoopRepeats(out: seq<Byte>, offset: nat, done: nat, length: nat)
    requires 1 <= offset <= |out|
    ensures CopyLoop(Repeat(out, offset, done), offset, length) == Some(Repeat(out, offset, done + length))
    decreases length
  {
    if length > 0 {
      var before := Repeat(out, offset, done);
      assert Repeat(out, offset, done + 1) == before + [before[|before| - offset]];
      CopyLoopRepeats(out, offset, done + 1, length - 1);
    }
  }

  lemma CopyDone(out: seq<Byte>, offset: nat, length: nat, rest: seq<Byte>)
    requires 1 <= offset <= |out|
    ensures AfterCopy(out, offset, length, rest) == Some(Progress(rest, Repeat(out, offset, length)))
  {
    assert Repeat(out, offset, 0) == out;
    CopyLoopRepeats(out, offset, 0, length);
  }

  lemma {:induction false} LittleInverts(n: nat, w: nat)
    requires n < Power256(w)
    ensures FromLittle(ToLittle(n, w)) == n
  {
    if w > 0 {
      LittleInverts(n / 256, w - 1);
      assert ToLittle(n, w)[1..] == ToLittle(n / 256, w - 1);
    }
  }

  lemma BytesRead(bytes: seq<Byte>, post: seq<Byte>, out: seq<Byte>)
    ensures ReadBytes(bytes + post, |bytes|, out) == Progress(post, out + bytes)
  {
    assert Take(bytes + post, |bytes|) == bytes && Drop(bytes + post, |bytes|) == post;
  }

  /** The tag and length bytes of a literal are read as its length. */
  lemma LengthRead(n: nat, width: nat, rest: seq<Byte>) returns (tag: Byte, word: seq<Byte>)
    requires if width == 0 then n < 60 else width <= 4 && n < Power256(width)
    ensures tag == (if width == 0 then n * 4 else (59 + width) * 4) && tag % 4 == 0
    ensures word == (if width == 0 then [] else ToLittle(n, width))
    ensures LiteralLength(tag, word + rest) == n + 1 && Drop(word + rest, LengthWidth(tag)) == rest
  {
    if width == 0 {
      tag, word := n * 4, [];
      assert word + rest == rest;
    } else {
      tag, word := (59 + width) * 4, ToLittle(n, width);
      LittleInverts(n, width);
      assert Take(word + rest, width) == word && Drop(word + rest, width) == rest;
    }
  }

  lemma LiteralDispatch(tag: Byte, rest: seq<Byte>, out: seq<Byte>)
    requires tag % 4 == 0
    ensures ReadElement([tag] + rest, out)
            == Some(ReadBytes(Drop(rest, LengthWidth(tag)), LiteralLength(tag, rest), out))
  {
    assert ([tag] + rest)[1..] == rest;
  }

  lemma LiteralReads(tag: Byte, word: seq<Byte>, bytes: seq<Byte>, post: seq<Byte>, out: seq<Byte>)
    requires tag % 4 == 0 && LiteralLength(tag, word + (bytes + post)) == |bytes|
    requires Drop(word + (bytes + post), LengthWidth(tag)) == bytes + post
    ensures ReadElement([tag] + (word + (bytes + post)), out) == Some(Progress(post, out + bytes))
  {
    LiteralDispatch(tag, word + (bytes + post), out);
    BytesRead(bytes, post, out);
  }

  lemma PrintedLiteral(bytes: seq<Byte>, width: nat, produced: nat, post: seq<Byte>, tag: Byte, word: seq<Byte>)
    requires Allowed(Literal(bytes, width), produced)
    requires tag == (if width == 0 then (|bytes| - 1) * 4 else (59 + width) * 4)
    requires word == (if width == 0 then [] else ToLittle(|bytes| - 1, width))
    ensures Printed(Literal(bytes, width), produced) + post == [tag] + (word + (bytes + post))
  {}

  lemma LiteralInverts(bytes: seq<Byte>, width: nat, post: seq<Byte>, out: seq<Byte>)
    requires Allowed(Literal(bytes, width), |out|)
    ensures ReadElement(Printed(Literal(bytes, width), |out|) + post, out) == Some(Progress(post, out + bytes))
  {
    var tag, word := LengthRead(|bytes| - 1, width, bytes + post);
    PrintedLiteral(bytes, width, |out|, post, tag, word);
    LiteralReads(tag, word, bytes, post, out);
  }

  lemma CopyOneTag(length: nat, offset: nat) returns (tag: int)
    requires 4 <= length <= 11 && offset < 2048
    ensures tag == 1 + (length - 4) * 4 + offset / 256 * 32 && 0 <= tag < 256
    ensures tag % 4 == 1 && tag / 4 % 8 + 4 == length && tag / 32 * 256 + offset % 256 == offset
  {
    var high := offset / 256;
    tag := 1 + (length - 4) * 4 + high * 32;
    assert tag / 32 == high && tag / 4 == high * 8 + (length - 4);
  }

  lemma PrintedNear(length: nat, offset: nat, produced: nat, post: seq<Byte>) returns (tag: Byte, low: Byte)
    requires Allowed(CopyOne(length, offset), produced)
    ensures Printed(CopyOne(length, offset), produced) + post == [tag] + ([low] + post)
    ensures tag % 4 == 1 && tag / 4 % 8 + 4 == length && (tag as int) / 32 * 256 + low == offset
  {
    tag := CopyOneTag(length, offset);
    low := offset % 256;
  }

  lemma NearReads(tag: Byte, low: Byte, length: nat, offset: nat, post: seq<Byte>, out: seq<Byte>)
    requires 1 <= offset <= |out| && tag % 4 == 1
    requires tag / 4 % 8 + 4 == length && (tag as int) / 32 * 256 + low == offset
    ensures ReadElement([tag] + ([low] + post), out) == Some(Progress(post, Repeat(out, offset, length)))
  {
    NearDispatch(tag, low, post, out);
    CopyDone(out, offset, length, post);
  }

  lemma NearInverts(length: nat, offset: nat, post: seq<Byte>, out: seq<Byte>)
    requires Allowed(CopyOne(length, offset), |out|)
    ensures ReadElement(Printed(CopyOne(length, offset), |out|) + post, out)
            == Some(Progress(post, Repeat(out, offset, length)))
  {
    var tag, low := PrintedNear(length, offset, |out|, post);
    NearReads(tag, low, length, offset, post, out);
  }

  lemma NearDispatch(tag: Byte, low: Byte, post: seq<Byte>, out: seq<Byte>)
    requires tag % 4 == 1
    ensures ReadElement([tag] + ([low] + post), out)
            == AfterCopy(out, (tag as int) / 32 * 256 + low, tag / 4 % 8 + 4, post)
  {
    assert ([tag] + ([low] + post))[1..] == [low] + post;
    assert Drop([low] + post, 1) == post;
  }

  lemma WideReads(tag: Byte, word: seq<Byte>, post: seq<Byte>, out: seq<Byte>, offset: nat)
    requires 1 <= offset <= |out| && FromLittle(word) == offset
    ensures ReadWide(tag, word + post, out, |word|) == Some(Progress(post, Repeat(out, offset, tag / 4 + 1)))
  {
    assert Take(word + post, |word|) == word && Drop(word + post, |word|) == post;
    CopyDone(out, offset, tag / 4 + 1, post);
  }

  lemma WideDispatch(tag: Byte, rest: seq<Byte>, out: seq<Byte>)
    requires tag % 4 >= 2
    ensures ReadElement([tag] + rest, out) == ReadWide(tag, rest, out, if tag % 4 == 2 then 2 else 4)
  {
    assert ([tag] + rest)[1..] == rest;
  }

  lemma WideCopyInverts(tag: Byte, word: seq<Byte>, offset: nat, post: seq<Byte>, out: seq<Byte>)
    requires (tag % 4 == 2 && |word| == 2) || (tag % 4 == 3 && |word| == 4)
    requires 1 <= offset <= |out| && FromLittle(word) == offset
    ensures ReadElement([tag] + (word + post), out) == Some(Progress(post, Repeat(out, offset, tag / 4 + 1)))
  {
    WideReads(tag, word, post, out, offset);
    WideDispatch(tag, word + post, out);
  }

  lemma PrintedWide(e: Element, produced: nat, post: seq<Byte>) returns (tag: Byte, word: seq<Byte>)
    requires (e.CopyTwo? || e.CopyFour?) && Allowed(e, produced)
    ensures Printed(e, produced) + post == [tag] + (word + post)
    ensures FromLittle(word) == e.offset && tag / 4 + 1 == e.length
    ensures (tag % 4 == 2 && |word| == 2) || (tag % 4 == 3 && |word| == 4)
  {
    Powers();
    var width := if e.CopyTwo? then 2 else 4;
    tag := (if e.CopyTwo? then 2 else 3) + (e.length - 1) * 4;
    word := ToLittle(e.offset, width);
    LittleInverts(e.offset, width);
  }

  lemma Powers()
    ensures Power256(2) == 0x1_0000 && Power256(4) == 0x1_0000_0000
  {
    assert Power256(2) == 256 * Power256(1);
    assert Power256(4) == 256 * Power256(3) && Power256(3) == 256 * Power256(2);
  }

  lemma WideInverts(e: Element, post: seq<Byte>, out: seq<Byte>)
    requires (e.CopyTwo? || e.CopyFour?) && Allowed(e, |out|)
    ensures ReadElement(Printed(e, |out|) + post, out) == Some(Progress(post, Repeat(out, e.offset, e.length)))
  {
    var tag, word := PrintedWide(e, |out|, post);
    WideCopyInverts(tag, word, e.offset, post, out);
  }

  lemma ElementInverts(e: Element, post: seq<Byte>, out: seq<Byte>)
    requires Allowed(e, |out|)
    ensures ReadElement(Printed(e, |out|) + post, out) == Some(Progress(post, Expanded(e, out)))
  {
    match e
    case Literal(bytes, width) => LiteralInverts(bytes, width, post, out);
    case CopyOne(length, offset) => NearInverts(length, offset, post, out);
    case CopyTwo(_, _) => WideInverts(e, post, out);
    case CopyFour(_, _) => WideInverts(e, post, out);
  }

  lemma {:induction false} ElementsInvert(es: seq<Element>, out: seq<Byte>)
    requires AllAllowed(es, out)
    ensures ReadElements(Print(es, out), out) == Some(Expansion(es, out))
    decreases |es|
  {
    if es != [] {
      var rest := Print(es[1..], Expanded(es[0], out));
      ElementInverts(es[0], rest, out);
      ElementsInvert(es[1..], Expanded(es[0], out));
    }
  }

  lemma {:induction false} PreambleSkipped(n: nat, rest: seq<Byte>)
    ensures SkipPreamble(Varint(n) + rest) == Some(rest)
  {
    var data := Varint(n) + rest;
    if n < 128 {
      assert data[1..] == rest;
    } else {
      PreambleSkipped(n / 128, rest);
      assert data[1..] == Varint(n / 128) + rest;
    }
  }

  /** The decoder inverts the printer: for every list of elements the format allows, and whatever
      length the preamble states, it returns the expansion. */
  lemma RoundTrip(es: seq<Element>, stated: nat)
    requires AllAllowed(es, [])
    ensures Decoded(Varint(stated) + Print(es, [])) == Some(Expansion(es, []))
  {
    PreambleSkipped(stated, Print(es, []));
    ElementsInvert(es, []);
  }

  function Times(b: Byte, n: nat): (r: seq<Byte>) ensures |r| == n { seq(n, _ => b) }

  /** Outside the format: an offset of zero, which the format does not allow, is not refused but
      repeats the first byte of the output. */
  lemma {:induction false} ZeroOffsetRepeatsFirst(out: seq<Byte>, length: nat)
    requires out != []
    ensures CopyLoop(out, 0, length) == Some(out + Times(out[0], length))
    decreases length
  {
    if length > 0 {
      ZeroOffsetRepeatsFirst(out + [out[0]], length - 1);
      assert out + [out[0]] + Times(out[0], length - 1) == out + Times(out[0], length);
    } else {
      assert out + Times(out[0], 0) == out;
    }
  }
}
