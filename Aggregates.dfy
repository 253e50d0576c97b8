/** Schemas, attributes and aggregates identified by a bitset over the
    schema's ordered attribute list. */
module Aggregates {
  import opened JavaLang

  /** A dimension level. The model identifies an attribute by its name; how
      the Java `Attribute` implements `equals` is not part of this model. */
  datatype Attribute = Attribute(name: string)

  /** The part of a schema the core reads: its ordered attribute list. */
  datatype Schema = Schema(attributes: seq<Attribute>)

  /** An aggregate: bit `i` is set when the schema's `i`-th attribute is part
      of the roll-up's grouping key. */
  datatype AggregateImpl = AggregateImpl(schema: Schema, bits: seq<bool>)

  /** The attributes an aggregate groups by, read back from its bits. */
  function AttributesOf(agg: AggregateImpl): (attrs: set<Attribute>)
  {
    set i | 0 <= i < |agg.bits| && i < |agg.schema.attributes| && agg.bits[i] :: agg.schema.attributes[i]
  }

  /** The bitset `createAggregate` builds: as wide as the attribute list, with
      exactly the bits at the (first) schema index of each listed attribute. */
  function BitsOf(attributes: seq<Attribute>, attributeList: seq<Attribute>): (bits: seq<bool>)
    ensures |bits| == |attributes|
  {
    seq(|attributes|, i => exists k :: 0 <= k < |attributeList| && IndexOf(attributes, attributeList[k]) == i)
  }

  /** The loop of `createAggregate` over a `BitSetPlus` of width
      `|attributes|`. An attribute missing from the schema has index -1, and
      setting bit -1 throws: that outcome is `None`. */
  method SetAttributeBits(attributes: seq<Attribute>, attributeList: seq<Attribute>)
    returns (bits: Option<seq<bool>>)
    ensures bits.None? <==> exists k :: 0 <= k < |attributeList| && attributeList[k] !in attributes
    ensures bits.Some? ==> bits.value == BitsOf(attributes, attributeList)
  {
    var bitSet := new bool[|attributes|](_ => false);
    for k := 0 to |attributeList|
      invariant forall j :: 0 <= j < k ==> attributeList[j] in attributes
      invariant forall i :: 0 <= i < bitSet.Length ==>
                  (bitSet[i] <==> exists j :: 0 <= j < k && IndexOf(attributes, attributeList[j]) == i)
    {
      var index := IndexOf(attributes, attributeList[k]);
      if index < 0 {
        return None;
      }
      bitSet[index] := true;
    }
    bits := Some(bitSet[..]);
  }

  /** Reading the attributes back from an aggregate built from a list gives
      the list's attributes, regardless of order and repetitions. */
  lemma RoundTrip(schema: Schema, attributeList: seq<Attribute>)
    requires forall k :: 0 <= k < |attributeList| ==> attributeList[k] in schema.attributes
    ensures AttributesOf(AggregateImpl(schema, BitsOf(schema.attributes, attributeList)))
            == set k | 0 <= k < |attributeList| :: attributeList[k]
  {
    var agg := AggregateImpl(schema, BitsOf(schema.attributes, attributeList));
    var listed := set k | 0 <= k < |attributeList| :: attributeList[k];
    forall a | a in AttributesOf(agg) ensures a in listed {
      var i :| 0 <= i < |agg.bits| && i < |schema.attributes| && agg.bits[i] && schema.attributes[i] == a;
      var k :| 0 <= k < |attributeList| && IndexOf(schema.attributes, attributeList[k]) == i;
      assert attributeList[k] == a;
    }
    forall a | a in listed ensures a in AttributesOf(agg) {
      var k :| 0 <= k < |attributeList| && attributeList[k] == a;
      var i := IndexOf(schema.attributes, a);
      assert agg.bits[i];
    }
  }
}
