/** ThriftType: a named Thrift type whose fields are kept in a table keyed by
    field position. */
module ThriftTypes {

  import opened Base
  import opened ThriftFields

  /** Every field of the table sits at its own position. */
  ghost predicate KeyedByPosition(m: map<Int32, ThriftField>) {
    forall p :: p in m ==> m[p].position == p
  }

  /** The table built by adding items one after the other, each replacing
      whatever an earlier item put at its position. */
  function FieldTable(items: seq<ThriftField>): (table: map<Int32, ThriftField>)
    ensures KeyedByPosition(table)
    decreases |items|
  {
    if items == [] then map[]
    else
      var last := items[|items| - 1];
      FieldTable(items[..|items| - 1])[last.position := last]
  }

  /** The last item of the list at position p, if any: an independent
      description of what the table holds at p. */
  function LastAtPosition(items: seq<ThriftField>, p: Int32): (r: Option<ThriftField>)
    ensures r.None? <==> forall i :: 0 <= i < |items| ==> items[i].position != p
    ensures r.Some? ==>
      exists i :: (0 <= i < |items| && items[i] == r.value && items[i].position == p &&
                   forall j :: i < j < |items| ==> items[j].position != p)
    decreases |items|
  {
    if items == [] then None
    else
      var last := items[|items| - 1];
      if last.position == p then Some(last) else LastAtPosition(items[..|items| - 1], p)
  }

  /** The positions that occur in the list. */
  function Positions(items: seq<ThriftField>): set<Int32> {
    set i | 0 <= i < |items| :: items[i].position
  }

  /** Looking p up in the table gives the last item at p, or nothing when no
      item has that position. */
  lemma {:induction false} FieldTableLookup(items: seq<ThriftField>, p: Int32)
    ensures (if p in FieldTable(items) then Some(FieldTable(items)[p]) else None) == LastAtPosition(items, p)
    decreases |items|
  {
    if items != [] {
      FieldTableLookup(items[..|items| - 1], p);
    }
  }

  /** The table holds one entry per distinct position, so no more than the
      list has items. */
  lemma {:induction false} FieldTableSize(items: seq<ThriftField>)
    ensures FieldTable(items).Keys == Positions(items)
    ensures |FieldTable(items)| == |Positions(items)| <= |items|
    decreases |items|
  {
    if items != [] {
      var front := items[..|items| - 1];
      FieldTableSize(front);
      assert Positions(items) == Positions(front) + {items[|items| - 1].position} by {
        forall q | q in Positions(items) ensures q in Positions(front) + {items[|items| - 1].position} {
          var i :| 0 <= i < |items| && items[i].position == q;
          if i < |items| - 1 { assert front[i] == items[i]; }
        }
        forall q | q in Positions(front) ensures q in Positions(items) {
          var i :| 0 <= i < |front| && front[i].position == q;
          assert items[i] == front[i];
        }
      }
    }
  }

  /** A map whose every entry is stored under its own key has as many
      distinct values as keys. */
  lemma {:induction false} KeyedValuesCount(m: map<Int32, ThriftField>)
    requires KeyedByPosition(m)
    ensures |m.Values| == |m|
    decreases |m|
  {
    if m != map[] {
      var p :| p in m;
      var rest := m - {p};
      KeyedValuesCount(rest);
      assert m.Values == rest.Values + {m[p]} by {
        forall v | v in m.Values ensures v in rest.Values + {m[p]} {
          var q :| q in m && m[q] == v;
          if q != p { assert q in rest; }
        }
        forall v | v in rest.Values ensures v in m.Values {
          var q :| q in rest && rest[q] == v;
          assert q in m;
        }
      }
      assert m[p] !in rest.Values;
      assert |m| == |rest| + 1;
    }
  }

  class ThriftType {
    const name: Option<string>
    var thriftItems: map<Int32, ThriftField>

    /** Every field is stored under its own position. */
    ghost predicate Valid()
      reads this
    {
      KeyedByPosition(thriftItems)
    }

    /** The constructor keeps the name (getName returns it) and adds the items in order. */
    constructor (name: Option<string>, items: seq<ThriftField>)
      ensures Valid() && this.name == name
      ensures thriftItems == FieldTable(items)
      ensures forall p: Int32 :: GetFieldByPosition(p) == LastAtPosition(items, p)
    {
      this.name := name;
      thriftItems := map[];
      new;
      SetSchema(items);
      forall p: Int32 ensures GetFieldByPosition(p) == LastAtPosition(items, p) {
        FieldTableLookup(items, p);
      }
    }

    /** addThriftField: stores the field at its position, whatever that
        position is, replacing any field already there. */
    method AddThriftField(field: ThriftField)
      requires Valid()
      modifies this`thriftItems
      ensures Valid()
      ensures thriftItems == old(thriftItems)[field.position := field]
      ensures GetFieldByPosition(field.position) == Some(field)
      ensures forall p: Int32 :: p != field.position ==> GetFieldByPosition(p) == old(GetFieldByPosition(p))
    {
      thriftItems := thriftItems[field.position := field];
    }

    /** setSchema: adds every item in list order. */
    method SetSchema(items: seq<ThriftField>)
      requires Valid()
      modifies this`thriftItems
      ensures Valid()
      ensures thriftItems == old(thriftItems) + FieldTable(items)
    {
      for i := 0 to |items|
        invariant Valid()
        invariant thriftItems == old(thriftItems) + FieldTable(items[..i])
      {
        assert items[..i + 1][..i] == items[..i];
        AddThriftField(items[i]);
      }
      assert items[..|items|] == items;
    }

    /** getSchema: the stored fields, one per position. */
    function GetSchema(): (r: set<ThriftField>)
      reads this
      requires Valid()
      ensures r <= thriftItems.Values
      ensures forall p :: p in thriftItems ==> thriftItems[p] in r
      ensures |r| == |thriftItems|
    {
      KeyedValuesCount(thriftItems);
      thriftItems.Values
    }

    /** getFieldByPosition: the field at position i, or null. */
    function GetFieldByPosition(i: Int32): (r: Option<ThriftField>)
      reads this
      ensures r.Some? <==> i in thriftItems
      ensures r.Some? ==> r.value == thriftItems[i]
    {
      if i in thriftItems then Some(thriftItems[i]) else None
    }
  }
}
