/** Exactly where the decoder of deploy/logs/loki-standin.py keeps to the Snappy compressed format
    description, and byte strings it takes although they are no blocks of that format. */
module SnappyLimits {
  import opened Base
  import opened Snappy

  function WordWidth(tag: Byte): nat { if tag % 4 == 2 then 2 else 4 }

  /** Every byte the element announces is there. */
  predicate Untruncated(data: seq<Byte>) requires data != [] {
    var tag, rest := data[0], data[1..];
    if tag % 4 == 0 then LengthWidth(tag) + LiteralLength(tag, rest) <= |rest|
    else if tag % 4 == 1 then 1 <= |rest|
    else WordWidth(tag) <= |rest|
  }

  /** The offset of a copy as the decoder reads it. */
  function OffsetRead(data: seq<Byte>): nat requires data != [] && data[0] % 4 != 0 && Untruncated(data) {
    var tag, rest := data[0], data[1..];
    if tag % 4 == 1 then (tag as int) / 32 * 256 + rest[0] else FromLittle(Take(rest, WordWidth(tag)))
  }

  /** The element is whole and, if a copy, does not have offset zero. */
  predicate Intact(data: seq<Byte>) requires data != [] {
    Untruncated(data) && (data[0] % 4 != 0 ==> OffsetRead(data) != 0)
  }

  /** The data start with this element in one of its printed forms. */
  ghost predicate StartsWith(data: seq<Byte>, produced: nat, e: Element, post: seq<Byte>) {
    Allowed(e, produced) && data == Printed(e, produced) + post
  }

  lemma {:induction false} LittleFits(s: seq<Byte>)
    ensures FromLittle(s) < Power256(|s|) && ToLittle(FromLittle(s), |s|) == s
  {
    if s != [] {
      LittleFits(s[1..]);
      assert FromLittle(s) % 256 == s[0] && FromLittle(s) / 256 == FromLittle(s[1..]);
      assert s == [s[0]] + s[1..];
    }
  }

  lemma LiteralTag(tag: Byte)
    requires tag % 4 == 0
    ensures LengthWidth(tag) <= 4
    ensures LengthWidth(tag) == 0 ==> tag / 4 < 60 && tag as int == (tag as int) / 4 * 4
    ensures LengthWidth(tag) > 0 ==> tag as int == (59 + LengthWidth(tag)) * 4
  {}

  lemma LiteralAllowed(tag: Byte, rest: seq<Byte>, bytes: seq<Byte>, produced: nat)
    requires tag % 4 == 0 && LengthWidth(tag) <= |rest| && |bytes| == LiteralLength(tag, rest)
    ensures Allowed(Literal(bytes, LengthWidth(tag)), produced)
    ensures tag == (if LengthWidth(tag) == 0 then (|bytes| - 1) * 4 else (59 + LengthWidth(tag)) * 4)
    ensures rest[..LengthWidth(tag)] == (if LengthWidth(tag) == 0 then [] else ToLittle(|bytes| - 1, LengthWidth(tag)))
  {
    LiteralTag(tag);
    LittleFits(rest[..LengthWidth(tag)]);
  }

  lemma InThree(s: seq<Byte>, i: nat, n: nat)
    requires i + n <= |s|
    ensures s == s[..i] + (s[i..i + n] + s[i + n..])
  {}

  lemma PutTogether(data: seq<Byte>, produced: nat, tag: Byte, word: seq<Byte>, e: Element, post: seq<Byte>)
    requires e.Literal? && Allowed(e, produced) && data == [tag] + (word + (e.bytes + post))
    requires tag == (if e.width == 0 then (|e.bytes| - 1) * 4 else (59 + e.width) * 4)
    requires word == (if e.width == 0 then [] else ToLittle(|e.bytes| - 1, e.width))
    ensures StartsWith(data, produced, e, post)
  {
    PrintedLiteral(e.bytes, e.width, produced, post, tag, word);
  }

  lemma LiteralIsPrinted(data: seq<Byte>, produced: nat) returns (e: Element, post: seq<Byte>)
    requires data != [] && data[0] % 4 == 0 && Untruncated(data)
    ensures StartsWith(data, produced, e, post)
  {
    var tag, rest := data[0], data[1..];
    var width, length := LengthWidth(tag), LiteralLength(tag, rest);
    InThree(rest, width, length);
    var bytes := rest[width..width + length];
    e, post := Literal(bytes, width), rest[width + length..];
    LiteralAllowed(tag, rest, bytes, produced);
    PutTogether(data, produced, tag, rest[..width], e, post);
  }

  /** A copy the decoder survives reaches back no further than the output. */
  lemma SurvivedCopyReaches(out: seq<Byte>, offset: nat, length: nat)
    requires 0 < length && 0 < offset && CopyLoop(out, offset, length).Some?
    ensures offset <= |out|
  {}

  lemma NearIsPrinted(data: seq<Byte>, out: seq<Byte>) returns (e: Element, post: seq<Byte>)
    requires data != [] && data[0] % 4 == 1 && Intact(data) && ReadElement(data, out).Some?
    ensures StartsWith(data, |out|, e, post)
  {
    var tag, rest := data[0], data[1..];
    var length, offset := tag / 4 % 8 + 4, (tag as int) / 32 * 256 + rest[0];
    SurvivedCopyReaches(out, offset, length);
    e, post := CopyOne(length, offset), rest[1..];
    assert offset / 256 == (tag as int) / 32 && offset % 256 == rest[0];
    assert tag as int == 1 + (length - 4) * 4 + offset / 256 * 32;
    assert rest == [rest[0]] + post && data == [tag] + rest;
  }

  lemma WideIsPrinted(data: seq<Byte>, out: seq<Byte>) returns (e: Element, post: seq<Byte>)
    requires data != [] && data[0] % 4 >= 2 && Intact(data) && ReadElement(data, out).Some?
    ensures StartsWith(data, |out|, e, post)
  {
    Powers();
    var tag, rest := data[0], data[1..];
    var length, width := (tag as int) / 4 + 1, WordWidth(tag);
    var word := rest[..width];
    LittleFits(word);
    assert Take(rest, width) == word;
    var offset := FromLittle(word);
    SurvivedCopyReaches(out, offset, length);
    e := if tag % 4 == 2 then CopyTwo(length, offset) else CopyFour(length, offset);
    post := rest[width..];
    assert rest == word + post && data == [tag] + rest;
  }

  lemma PrintedIsIntact(data: seq<Byte>, produced: nat, e: Element, post: seq<Byte>)
    requires StartsWith(data, produced, e, post)
    ensures data != [] && Intact(data)
  {
    match e
    case Literal(bytes, width) =>
      var tag, word := LengthRead(|bytes| - 1, width, bytes + post);
      PrintedLiteral(bytes, width, produced, post, tag, word);
      assert data[1..] == word + (bytes + post);
    case CopyOne(length, offset) =>
      var tag, low := PrintedNear(length, offset, produced, post);
      assert data[1..] == [low] + post;
    case _ =>
      var tag, word := PrintedWide(e, produced, post);
      assert data[1..] == word + post && Take(word + post, |word|) == word;
  }

  /** An element the decoder reads is one the format describes, with the effect the format gives it,
      if and only if it is not truncated and is not a copy with offset zero. */
  lemma ReadIsFormatIffIntact(data: seq<Byte>, out: seq<Byte>)
    requires data != []
    ensures ReadElement(data, out).Some? && Intact(data) <==> exists e, post :: StartsWith(data, |out|, e, post)
    ensures forall e, post :: StartsWith(data, |out|, e, post) ==>
              ReadElement(data, out) == Some(Progress(post, Expanded(e, out)))
  {
    if ReadElement(data, out).Some? && Intact(data) {
      var e, post;
      if data[0] % 4 == 0 { e, post := LiteralIsPrinted(data, |out|); }
      else if data[0] % 4 == 1 { e, post := NearIsPrinted(data, out); }
      else { e, post := WideIsPrinted(data, out); }
      assert StartsWith(data, |out|, e, post);
    }
    forall e, post | StartsWith(data, |out|, e, post)
      ensures Intact(data) && ReadElement(data, out) == Some(Progress(post, Expanded(e, out)))
    {
      PrintedIsIntact(data, |out|, e, post);
      ElementInverts(e, post, out);
    }
  }

  /** Every element is read, and is intact where it is read. */
  predicate AllIntact(data: seq<Byte>, out: seq<Byte>)
    decreases |data|
  {
    data != [] ==>
      ReadElement(data, out).Some? && Intact(data)
      && AllIntact(ReadElement(data, out).value.rest, ReadElement(data, out).value.out)
  }

  ghost predicate Spells(data: seq<Byte>, out: seq<Byte>, es: seq<Element>) {
    AllAllowed(es, out) && data == Print(es, out)
  }

  lemma {:induction false} IntactIsSpelled(data: seq<Byte>, out: seq<Byte>) returns (es: seq<Element>)
    requires AllIntact(data, out)
    ensures Spells(data, out, es)
    decreases |data|
  {
    if data == [] {
      es := [];
    } else {
      ReadIsFormatIffIntact(data, out);
      var e, post :| StartsWith(data, |out|, e, post);
      var rest := IntactIsSpelled(post, Expanded(e, out));
      es := [e] + rest;
      assert es[1..] == rest;
    }
  }

  lemma {:induction false} SpelledIsIntact(data: seq<Byte>, out: seq<Byte>, es: seq<Element>)
    requires Spells(data, out, es)
    ensures AllIntact(data, out)
    decreases |es|
  {
    if es != [] {
      var post := Print(es[1..], Expanded(es[0], out));
      assert StartsWith(data, |out|, es[0], post);
      PrintedIsIntact(data, |out|, es[0], post);
      ReadIsFormatIffIntact(data, out);
      SpelledIsIntact(post, Expanded(es[0], out), es[1..]);
    }
  }

  /** A base-128 number, in as many bytes as it was written with. */
  predicate IsPreamble(pre: seq<Byte>) {
    pre != [] && Last(pre) < 128 && forall i :: 0 <= i < |pre| - 1 ==> 128 <= pre[i]
  }

  function Stated(pre: seq<Byte>): nat {
    if pre == [] then 0 else pre[0] % 128 + 128 * Stated(pre[1..])
  }

  /** A whole block of the format: the preamble states the length of what the elements expand to. */
  ghost predicate IsBlock(data: seq<Byte>, r: seq<Byte>) {
    exists pre, es :: BlockParts(data, r, pre, es)
  }

  ghost predicate BlockParts(data: seq<Byte>, r: seq<Byte>, pre: seq<Byte>, es: seq<Element>) {
    && IsPreamble(pre) && AllAllowed(es, []) && data == pre + Print(es, [])
    && r == Expansion(es, []) && Stated(pre) == |r| < 0x1_0000_0000
  }

  /** The preamble of the data, if they hold one. */
  function Preamble(data: seq<Byte>): (pre: Option<seq<Byte>>)
    ensures pre.Some? <==> SkipPreamble(data).Some?
    ensures pre.Some? ==> IsPreamble(pre.value) && data == pre.value + SkipPreamble(data).value
  {
    if data == [] then None
    else if data[0] < 128 then Some([data[0]])
    else
      match Preamble(data[1..])
      case None => None
      case Some(rest) => Some([data[0]] + rest)
  }

  lemma {:induction false} PreambleIsFound(pre: seq<Byte>, rest: seq<Byte>)
    requires IsPreamble(pre)
    ensures Preamble(pre + rest) == Some(pre) && SkipPreamble(pre + rest) == Some(rest)
  {
    var data := pre + rest;
    assert data[1..] == pre[1..] + rest;
    if |pre| == 1 {
      assert pre == [pre[0]];
    } else {
      assert IsPreamble(pre[1..]);
      PreambleIsFound(pre[1..], rest);
      assert pre == [pre[0]] + pre[1..];
    }
  }

  /** The whole decoder: what it returns is what the format says the data mean if and only if every
      element it read was intact and the preamble, which it skips, states the length of the result. */
  lemma DecodedIsFormatIffIntact(data: seq<Byte>, r: seq<Byte>)
    ensures IsBlock(data, r) <==>
      (&& Decoded(data) == Some(r) && AllIntact(SkipPreamble(data).value, [])
       && Stated(Preamble(data).value) == |r| < 0x1_0000_0000)
  {
    if IsBlock(data, r) {
      var pre, es :| BlockParts(data, r, pre, es);
      PreambleIsFound(pre, Print(es, []));
      ElementsInvert(es, []);
      SpelledIsIntact(Print(es, []), [], es);
    }
    if Decoded(data) == Some(r) && AllIntact(SkipPreamble(data).value, [])
       && Stated(Preamble(data).value) == |r| < 0x1_0000_0000
    {
      var es := IntactIsSpelled(SkipPreamble(data).value, []);
      ElementsInvert(es, []);
      assert BlockParts(data, r, Preamble(data).value, es);
    }
  }

  /** The shortest preamble states its number. */
  lemma {:induction false} VarintStates(n: nat)
    ensures IsPreamble(Varint(n)) && Stated(Varint(n)) == n
  {
    if n >= 128 {
      VarintStates(n / 128);
      assert Varint(n)[1..] == Varint(n / 128);
      assert forall i :: 0 < i < |Varint(n)| ==> Varint(n)[i] == Varint(n / 128)[i - 1];
    }
  }

  const CUT_LITERAL: seq<Byte> := [5, 16, 1, 2]          // a literal of five bytes with two of them there
  const CUT_COPY: seq<Byte> := [2, 0, 65, 2]             // a copy without its offset
  const ZERO_OFFSET: seq<Byte> := [2, 0, 65, 2, 0, 0]
  const WRONG_LENGTH: seq<Byte> := [9, 0, 65]            // one byte where nine are stated

  lemma OneLiteral(rest: seq<Byte>)
    ensures ReadElement([0, 65] + rest, []) == Some(Progress(rest, [65])) && Intact([0, 65] + rest)
  {
    var data := [0, 65] + rest;
    assert data[1..] == [65] + rest;
    assert Drop([65] + rest, 0) == [65] + rest && Take([65] + rest, 1) == [65] && Drop([65] + rest, 1) == rest;
    assert [] + [65] == [65];
  }

  lemma CopyOfOne(copy: seq<Byte>)
    requires copy == [2] || copy == [2, 0, 0]
    ensures ReadElement(copy, [65]) == Some(Progress([], [65, 65])) && !Intact(copy)
  {
    var word := copy[1..];
    assert Take(word, 2) == word && (word != [] ==> word[1..] == [0] && word[1..][1..] == []);
    assert FromLittle([0]) == 0;
    assert FromLittle(word) == 0;
    assert CopyLoop([65], 0, 1) == CopyLoop([65] + [65], 0, 0) && [65] + [65] == [65, 65];
    assert Drop(word, 2) == [];
  }

  lemma CopyAfterOne(copy: seq<Byte>)
    requires copy == [2] || copy == [2, 0, 0]
    ensures Decoded([2, 0, 65] + copy) == Some([65, 65]) && !AllIntact([0, 65] + copy, [])
  {
    CopyOfOne(copy);
    OneLiteral(copy);
    assert ReadElements(copy, [65]) == Some([65, 65]) && !AllIntact(copy, [65]);
    assert ([2, 0, 65] + copy)[1..] == [0, 65] + copy;
  }

  /** One byte string for each kind that the decoder takes although it is no block of the format. */
  lemma TakenOutsideTheFormat()
    ensures Decoded(CUT_LITERAL) == Some([1, 2]) && !IsBlock(CUT_LITERAL, [1, 2])
    ensures Decoded(CUT_COPY) == Some([65, 65]) && !IsBlock(CUT_COPY, [65, 65])
    ensures Decoded(ZERO_OFFSET) == Some([65, 65]) && !IsBlock(ZERO_OFFSET, [65, 65])
    ensures Decoded(WRONG_LENGTH) == Some([65]) && !IsBlock(WRONG_LENGTH, [65])
  {
    CutLiteral();
    assert [2, 0, 65] + [2] == CUT_COPY && CUT_COPY[1..] == [0, 65] + [2];
    CopyAfterOne([2]);
    assert [2, 0, 65] + [2, 0, 0] == ZERO_OFFSET && ZERO_OFFSET[1..] == [0, 65] + [2, 0, 0];
    CopyAfterOne([2, 0, 0]);
    DecodedIsFormatIffIntact(CUT_COPY, [65, 65]);
    DecodedIsFormatIffIntact(ZERO_OFFSET, [65, 65]);
    WrongLength();
  }

  lemma CutLiteral()
    ensures Decoded(CUT_LITERAL) == Some([1, 2]) && !IsBlock(CUT_LITERAL, [1, 2])
  {
    var data: seq<Byte> := [16, 1, 2];
    assert CUT_LITERAL[1..] == data && data[1..] == [1, 2];
    assert ReadElement(data, []) == Some(Progress([], [1, 2])) by {
      assert Drop([1, 2], 0) == [1, 2] && Take([1, 2], 5) == [1, 2] && Drop([1, 2], 5) == [];
      assert [] + [1, 2] == [1, 2];
    }
    assert !AllIntact(data, []);
    DecodedIsFormatIffIntact(CUT_LITERAL, [1, 2]);
  }

  lemma WrongLength()
    ensures Decoded(WRONG_LENGTH) == Some([65]) && !IsBlock(WRONG_LENGTH, [65])
  {
    assert WRONG_LENGTH[1..] == [0, 65] + [];
    OneLiteral([]);
    assert Preamble(WRONG_LENGTH) == Some([9]) && Stated([9]) == 9;
    DecodedIsFormatIffIntact(WRONG_LENGTH, [65]);
  }
}
