/**
 Nested BSON documents built from their sizes (fuzz/seed_corpus.py), against the nesting the
 builder stands for. `None` is the exception `struct.pack` raises on a size past 2^31 - 1.
 */
module Bson {
  import opened Wrappers
  import opened WireBytes

  /** `struct.pack("<i", n)` of a size. */
  function PackInt(n: nat): Option<seq<Byte>> {
    if n < 0x80000000 then Some(LittleEndian(n, 4)) else None
  }

  function BsonDoc(elements: seq<Byte>): Option<seq<Byte>> {
    match PackInt(4 + |elements| + 1)
    case Some(size) => Some(size + elements + [0])
    case None => None
  }

  function BsonEl(kind: Byte, key: seq<Byte>, value: seq<Byte>): seq<Byte> {
    [kind] + key + [0] + value
  }

  /** `levels` documents, each the only member `a` of the one around it. */
  function Nested(levels: nat): Option<seq<Byte>>
    requires levels > 0
  {
    if levels == 1 then BsonDoc([])
    else
      match Nested(levels - 1)
      case Some(inner) => BsonDoc(BsonEl(3, [97], inner))
      case None => None
  }

  /** The sizes and element headers from document `i` in to document 1. */
  function Heads(i: nat): Option<seq<Byte>> {
    if i == 0 then Some([])
    else
      match (PackInt(5 + 8 * i), Heads(i - 1))
      case (Some(size), Some(rest)) => Some(size + [3, 97, 0] + rest)
      case _ => None
  }

  /** `bson_nested`: every header, the innermost document, every terminator. */
  function BsonNested(levels: nat): Option<seq<Byte>> {
    match (Heads(if levels == 0 then 0 else levels - 1), BsonDoc([]))
    case (Some(head), Some(doc)) => Some(head + doc + Zeros(if levels == 0 then 0 else levels - 1))
    case _ => None
  }

  /** A document's size is known from its depth alone. */
  lemma Around(i: nat, head: seq<Byte>, doc: seq<Byte>)
    requires |head| == 7 * i && |doc| == 5
    ensures BsonDoc(BsonEl(3, [97], head + doc + Zeros(i))) ==
            match PackInt(5 + 8 * (i + 1))
            case Some(size) => Some(size + [3, 97, 0] + head + doc + Zeros(i + 1))
            case None => None
  {
    var el := BsonEl(3, [97], head + doc + Zeros(i));
    assert |el| == 3 + 7 * i + 5 + i;
    assert el == [3, 97, 0] + (head + doc + Zeros(i));
    if PackInt(5 + 8 * (i + 1)).Some? {
      var size := LittleEndian(5 + 8 * (i + 1), 4);
      assert size + el + [0] == size + [3, 97, 0] + head + doc + (Zeros(i) + [0]);
    }
  }

  lemma {:induction false} HeadsLength(i: nat)
    ensures Heads(i).Some? ==> |Heads(i).value| == 7 * i
  {
    if i > 0 {
      HeadsLength(i - 1);
    }
  }

  lemma {:induction false} FastIsNested(levels: nat)
    requires levels > 0
    ensures BsonNested(levels) == Nested(levels)
  {
    hide BsonDoc, PackInt, LittleEndian;
    var doc := Innermost();
    if levels == 1 {
      assert [] + doc + Zeros(0) == doc;
    } else {
      FastIsNested(levels - 1);
      HeadsLength(levels - 2);
      if Heads(levels - 2).Some? {
        Around(levels - 2, Heads(levels - 2).value, doc);
      }
    }
  }

  lemma Innermost() returns (doc: seq<Byte>)
    ensures BsonDoc([]) == Some(doc) && |doc| == 5
  {
    doc := LittleEndian(5, 4) + [] + [0];
  }

  /**
   For every level count the fast builder is the naive nesting; with no levels it still
   writes one document.
   */
  lemma BsonNestedIs(levels: nat)
    ensures BsonNested(levels) == Nested(if levels == 0 then 1 else levels)
  {
    FastIsNested(if levels == 0 then 1 else levels);
  }

  /** It raises exactly when the outermost size does not fit. */
  lemma {:induction false} RaisesWhen(levels: nat)
    requires levels > 0
    ensures Nested(levels).Some? <==> 5 + 8 * (levels - 1) < 0x80000000
    ensures Nested(levels).Some? ==> |Nested(levels).value| == 5 + 8 * (levels - 1)
  {
    if levels > 1 {
      RaisesWhen(levels - 1);
    }
  }
}
