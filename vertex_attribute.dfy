/** Vertex attribute storage with change detection: a VertexAttribute is a
    growable sequence of tagged-union elements with a dirty flag guarding a
    raw byte cache, and a VertexAttributeArray maps attribute names to
    attributes. */
module VertexAttributes {
  import opened Types

  type Ints2 = s: seq<int32> | |s| == 2 witness [0, 0]
  type Ints3 = s: seq<int32> | |s| == 3 witness [0, 0, 0]
  type Ints4 = s: seq<int32> | |s| == 4 witness [0, 0, 0, 0]
  type Floats2 = s: seq<Float> | |s| == 2 witness [Float(0), Float(0)]
  type Floats3 = s: seq<Float> | |s| == 3 witness [Float(0), Float(0), Float(0)]
  type Floats4 = s: seq<Float> | |s| == 4 witness [Float(0), Float(0), Float(0), Float(0)]
  type Floats9 = s: seq<Float> | |s| == 9
    witness [Float(0), Float(0), Float(0), Float(0), Float(0), Float(0), Float(0), Float(0), Float(0)]
  type Floats16 = s: seq<Float> | |s| == 16
    witness [Float(0), Float(0), Float(0), Float(0), Float(0), Float(0), Float(0), Float(0),
             Float(0), Float(0), Float(0), Float(0), Float(0), Float(0), Float(0), Float(0)]

  /** ElementType: exactly one of the ten value shapes is held. */
  datatype Element =
    | Int1(i1: int32) | Int2(i2: Ints2) | Int3(i3: Ints3) | Int4(i4: Ints4)
    | Float1(f1: Float) | Float2(f2: Floats2) | Float3(f3: Floats3) | Float4(f4: Floats4)
    | Matf3(m3: Floats9) | Matf4(m4: Floats16)

  /** The position of the held alternative in the variant's list. */
  function Alternative(e: Element): (k: nat)
    ensures k < 10
    ensures k == 0 <==> e.Int1?
    ensures k == 4 <==> e.Float1?
  {
    match e
    case Int1(_) => 0
    case Int2(_) => 1
    case Int3(_) => 2
    case Int4(_) => 3
    case Float1(_) => 4
    case Float2(_) => 5
    case Float3(_) => 6
    case Float4(_) => 7
    case Matf3(_) => 8
    case Matf4(_) => 9
  }

  predicate SameAlternative(a: Element, b: Element) {
    Alternative(a) == Alternative(b)
  }

  /** A value-initialised variant holds its first alternative, zero. */
  const DefaultElement: Element := Int1(0)

  /** `std::get<T>(stored) == value` where T is the alternative `value`
      holds; false when `stored` holds a different alternative. */
  predicate Matches(stored: Element, value: Element)
    ensures Matches(stored, value) ==> SameAlternative(stored, value)
  {
    match (stored, value)
    case (Int1(a), Int1(b)) => a == b
    case (Int2(a), Int2(b)) => a == b
    case (Int3(a), Int3(b)) => a == b
    case (Int4(a), Int4(b)) => a == b
    case (Float1(a), Float1(b)) => FloatEq(a, b)
    case (Float2(a), Float2(b)) => FloatsEq(a, b)
    case (Float3(a), Float3(b)) => FloatsEq(a, b)
    case (Float4(a), Float4(b)) => FloatsEq(a, b)
    case (Matf3(a), Matf3(b)) => FloatsEq(a, b)
    case (Matf4(a), Matf4(b)) => FloatsEq(a, b)
    case _ => false
  }

  /** Whether some float component of an element is a NaN. */
  predicate HasNaN(e: Element) {
    match e
    case Float1(f) => IsNaN(f)
    case Float2(fs) => exists k :: 0 <= k < |fs| && IsNaN(fs[k])
    case Float3(fs) => exists k :: 0 <= k < |fs| && IsNaN(fs[k])
    case Float4(fs) => exists k :: 0 <= k < |fs| && IsNaN(fs[k])
    case Matf3(fs) => exists k :: 0 <= k < |fs| && IsNaN(fs[k])
    case Matf4(fs) => exists k :: 0 <= k < |fs| && IsNaN(fs[k])
    case _ => false
  }

  /** An element matches itself exactly when it carries no NaN: storing the
      same value again is a change only for NaN-carrying values. */
  lemma {:induction false} MatchesSelf(e: Element)
    ensures Matches(e, e) <==> !HasNaN(e)
  {
    match e
    case Float1(f) =>
    case Float2(fs) => FloatsSelf(fs);
    case Float3(fs) => FloatsSelf(fs);
    case Float4(fs) => FloatsSelf(fs);
    case Matf3(fs) => FloatsSelf(fs);
    case Matf4(fs) => FloatsSelf(fs);
    case _ =>
  }

  lemma FloatsSelf(fs: seq<Float>)
    ensures FloatsEq(fs, fs) <==> !exists k :: 0 <= k < |fs| && IsNaN(fs[k])
  {
    if exists k :: 0 <= k < |fs| && IsNaN(fs[k]) {
      var k :| 0 <= k < |fs| && IsNaN(fs[k]);
      NaNIsNotSelfEqual(fs[k]);
    }
  }

  /** `items.resize(max(items.size(), n))`: grows with default elements,
      never shrinks. */
  function Resized(items: seq<Element>, n: nat): (r: seq<Element>)
    ensures |r| == if n <= |items| then |items| else n
    ensures r[..|items|] == items
    ensures forall k :: |items| <= k < |r| ==> r[k] == DefaultElement
  {
    if n <= |items| then items else items + seq(n - |items|, _ => DefaultElement)
  }

  /** The items after `set(i, value)`: the sequence is grown to hold index
      i, i holds the value, and every other index is as before (or the
      default where it was just created). */
  function Stored(items: seq<Element>, i: nat, value: Element): (r: seq<Element>)
    ensures |r| == if i < |items| then |items| else i + 1
    ensures r[i] == value
    ensures forall k :: 0 <= k < |r| && k != i ==> r[k] == if k < |items| then items[k] else DefaultElement
  {
    Resized(items, i + 1)[i := value]
  }

  /** The dirty flag after the typed `set<T>(i, value)`. */
  predicate DirtyAfterSet(items: seq<Element>, dirty: bool, i: nat, value: Element)
    // set never clears dirty
    ensures dirty ==> DirtyAfterSet(items, dirty, i, value)
    // growing always marks dirty
    ensures |items| <= i ==> DirtyAfterSet(items, dirty, i, value)
    // on a clean attribute an in-range set dirties iff the alternative or the value changes
    ensures !dirty && i < |items| ==> (DirtyAfterSet(items, dirty, i, value) <==> !Matches(items[i], value))
  {
    dirty || |items| <= i || !Matches(items[i], value)
  }

  /** Whether the typed set calls setDirty, which discards the raw cache. */
  predicate SetDirtyCalled(items: seq<Element>, dirty: bool, i: nat, value: Element)
  {
    |items| <= i || (!dirty && !Matches(items[i], value))
  }

  /** Repeating a set with the same value on a clean attribute leaves it
      clean unless the value carries a NaN, which never equals itself. */
  lemma {:induction false} RepeatedSetKeepsClean(items: seq<Element>, i: nat, value: Element)
    ensures !DirtyAfterSet(Stored(items, i, value), false, i, value) <==> !HasNaN(value)
  {
    MatchesSelf(value);
  }

  datatype AttributeDataType = Invalid | DataType(code: nat)

  /** Everything a VertexAttribute holds, as one value. */
  datatype AttributeValue = AttributeValue(
    index: int, size: int, stride: int, dataType: AttributeDataType,
    items: seq<Element>, dirty: bool, rawData: seq<bv8>)

  /** The state of an attribute as `create` makes it: `count` default
      elements, stride `size * count`, dirty and with no cached bytes. */
  function Created(index: int, dataType: AttributeDataType, size: int, count: nat): (v: AttributeValue)
    ensures |v.items| == count && v.dirty && v.rawData == []
    ensures v.stride == size * count
  {
    AttributeValue(index, size, size * count, dataType, seq(count, _ => DefaultElement), true, [])
  }

  class VertexAttribute {
    var index: int
    const size: int
    const stride: int
    const dataType: AttributeDataType
    var items: seq<Element>
    /** A value has changed and any cached result must be discarded. */
    var dirty: bool
    var rawData: seq<bv8>

    /** A dirty attribute holds no cached raw bytes. */
    ghost predicate Valid()
      reads this
    {
      dirty ==> rawData == []
    }

    function Value(): AttributeValue
      reads this
    {
      AttributeValue(index, size, stride, dataType, items, dirty, rawData)
    }

    constructor (index: int, dataType: AttributeDataType, size: int, count: nat, stride: int)
      ensures Valid()
      ensures Value() == AttributeValue(index, size, stride, dataType, seq(count, _ => DefaultElement), true, [])
    {
      this.index := index;
      this.size := size;
      this.stride := stride;
      this.dataType := dataType;
      this.items := seq(count, _ => DefaultElement);
      this.dirty := true;
      this.rawData := [];
    }

    /** The (defaulted) copy constructor. */
    constructor Copy(other: VertexAttribute)
      requires other.Valid()
      ensures Valid()
      ensures Value() == other.Value()
    {
      index := other.index;
      size := other.size;
      stride := other.stride;
      dataType := other.dataType;
      items := other.items;
      dirty := other.dirty;
      rawData := other.rawData;
    }

    function GetCount(): (n: nat)
      reads this
      ensures n == |items|
    {
      |items|
    }

    function Get(i: nat): (e: Element)
      requires i < |items|
      reads this
      ensures e == items[i]
    {
      items[i]
    }

    /** Whether the value changed since the raw bytes were last built; a
        dirty attribute holds no cached bytes. */
    function IsDirty(): (r: bool)
      reads this
      ensures r <==> Value().dirty
      ensures r && Valid() ==> rawData == []
    {
      dirty
    }

    method SetIndex(value: int)
      modifies this
      ensures Value() == old(Value()).(index := value)
    {
      index := value;
    }

    /** A capacity hint only: nothing observable changes. */
    method Reserve(count: nat)
      ensures Value() == old(Value())
    {
    }

    method SetDirty()
      modifies this
      ensures Valid()
      ensures Value() == old(Value()).(dirty := true, rawData := [])
    {
      dirty := true;
      rawData := [];
    }

    /** The typed `set<T>(i, value)`, T being the alternative `value` holds. */
    method Set(i: nat, value: Element) returns (r: Element)
      requires Valid()
      modifies this
      ensures Valid()
      ensures r == value
      ensures items == Stored(old(items), i, value)
      ensures dirty == DirtyAfterSet(old(items), old(dirty), i, value)
      ensures rawData == if SetDirtyCalled(old(items), old(dirty), i, value) then [] else old(rawData)
      ensures index == old(index)
    {
      if |items| < i + 1 {
        items := Resized(items, i + 1);
        SetDirty();
      }
      if !IsDirty() {
        if SameAlternative(items[i], value) {
          if !Matches(items[i], value) {
            SetDirty();
          }
        } else {
          SetDirty();
        }
      }
      items := items[i := value];
      r := items[i];
    }

    /** `set(i, const ElementType&)`: no comparison, always dirty. */
    method SetErased(i: nat, value: Element) returns (r: Element)
      requires Valid()
      modifies this
      ensures Valid()
      ensures r == value
      ensures items == Stored(old(items), i, value)
      ensures dirty && rawData == []
      ensures index == old(index)
    {
      if |items| < i + 1 {
        items := Resized(items, i + 1);
      }
      SetDirty();
      items := items[i := value];
      r := items[i];
    }

    method Clear()
      requires Valid()
      modifies this
      ensures Valid()
      ensures items == []
      ensures dirty == (old(dirty) || old(items) != [])
      ensures rawData == if old(items) != [] then [] else old(rawData)
      ensures index == old(index)
    {
      if items != [] {
        SetDirty();
      }
      items := [];
    }
  }

  /** The attribute with this name, or None (the null sentinel). */
  function Lookup(attrs: map<string, VertexAttribute>, name: string): (r: Option<VertexAttribute>)
    ensures r.Some? <==> name in attrs
    ensures r.Some? ==> r.value == attrs[name]
  {
    if name in attrs then Some(attrs[name]) else None
  }

  /** Sum of the values of a map, in no particular order. */
  ghost function Sum(m: map<string, int>): int
    decreases m.Keys
  {
    if m == map[] then 0
    else
      var k :| k in m;
      m[k] + Sum(m - {k})
  }

  /** The largest value of a map, 0 for the empty map. */
  ghost function MaxOf(m: map<string, nat>): (r: nat)
    ensures forall n :: n in m ==> m[n] <= r
    ensures r == 0 || exists n :: n in m && m[n] == r
    decreases m.Keys
  {
    if m == map[] then 0
    else
      var k :| k in m;
      var rest := MaxOf(m - {k});
      assert forall n :: n in m - {k} ==> n in m && (m - {k})[n] == m[n];
      if m[k] <= rest then rest else m[k]
  }

  /** Any entry can be taken out first: the sum does not depend on order. */
  lemma {:induction false} SumRemove(m: map<string, int>, k: string)
    requires k in m
    ensures Sum(m) == m[k] + Sum(m - {k})
    decreases m.Keys
  {
    var j :| j in m && Sum(m) == m[j] + Sum(m - {j});
    if j != k {
      SumRemove(m - {j}, k);
      SumRemove(m - {k}, j);
      assert m - {j} - {k} == m - {k} - {j};
    }
  }

  /** One call of the resolve delegate: a default attribute and the override
      of the same name, if any. */
  datatype ResolveCall = ResolveCall(name: string, default: VertexAttribute, override: Option<VertexAttribute>)

  /** Stores a collection of vertex attributes by name. */
  class VertexAttributeArray {
    var attrs: map<string, VertexAttribute>

    /** Every entry is valid and owned by exactly one name. */
    ghost predicate Valid()
      reads this, attrs.Values
    {
      && (forall n :: n in attrs ==> attrs[n].Valid())
      && (forall n, m :: n in attrs && m in attrs && n != m ==> attrs[n] != attrs[m])
    }

    ghost function Snapshot(): map<string, AttributeValue>
      reads this, attrs.Values
    {
      map n | n in attrs :: attrs[n].Value()
    }

    ghost predicate AnyDirty()
      reads this, attrs.Values
    {
      exists n :: n in attrs && attrs[n].dirty
    }

    /** m is the largest element count among the entries (0 when empty). */
    ghost predicate IsMaxCount(m: nat)
      reads this, attrs.Values
    {
      && (forall n :: n in attrs ==> |attrs[n].items| <= m)
      && (m == 0 || exists n :: n in attrs && |attrs[n].items| == m)
    }

    /** The largest element count, as a value. */
    ghost function MaxCount(): nat
      reads this, attrs.Values
    {
      MaxOf(map n | n in attrs :: |attrs[n].items|)
    }

    /** MaxCount is the largest count of the entries, and 0 only when no
        entry has elements. */
    lemma MaxCountIsMax()
      ensures IsMaxCount(MaxCount())
    {
      var counts := map n | n in attrs :: |attrs[n].items|;
      assert forall n :: n in attrs ==> n in counts && counts[n] == |attrs[n].items|;
    }

    ghost function Strides(): map<string, int>
      reads this, attrs.Values
    {
      map n | n in attrs :: attrs[n].stride
    }

    constructor ()
      ensures Valid()
      ensures attrs == map[]
    {
      attrs := map[];
    }

    function Size(): (n: nat)
      reads this
      ensures n == |attrs|
    {
      |attrs|
    }

    function Get(name: string): (r: Option<VertexAttribute>)
      reads this
      ensures r.Some? <==> name in attrs
      ensures r.Some? ==> r.value == attrs[name]
    {
      Lookup(attrs, name)
    }

    /** `create`: a fresh attribute whose stride is `size * count`. */
    static method Create(index: int, dataType: AttributeDataType, size: int, count: nat) returns (a: VertexAttribute)
      ensures fresh(a) && a.Valid()
      ensures a.Value() == Created(index, dataType, size, count)
    {
      a := new VertexAttribute(index, dataType, size, count, size * count);
    }

    /** Inserts a new attribute unless the name is taken; a taken name
        yields None and leaves the existing entry untouched. */
    method Add(name: string, index: int := -1, dataType: AttributeDataType := Invalid, size: int := 1, count: nat := 1)
      returns (r: Option<VertexAttribute>)
      requires Valid()
      modifies this
      ensures Valid()
      ensures name in old(attrs) ==> r == None && attrs == old(attrs)
      ensures name !in old(attrs) ==>
        && r.Some? && fresh(r.value)
        && attrs == old(attrs)[name := r.value]
        && r.value.Value() == Created(index, dataType, size, count)
    {
      if name in attrs {
        r := None;
      } else {
        var a := Create(index, dataType, size, count);
        attrs := attrs[name := a];
        r := Some(a);
      }
    }

    /** Returns the existing entry when its data type and count agree with
        the request, None when they conflict, and otherwise adds one. */
    method GetOrAdd(name: string, index: int := -1, dataType: AttributeDataType := Invalid, size: int := 1, count: nat := 1)
      returns (r: Option<VertexAttribute>)
      requires Valid()
      modifies this
      ensures Valid()
      ensures name in old(attrs) ==> attrs == old(attrs)
      ensures name in old(attrs) ==>
        var a := old(attrs)[name];
        r == if a.dataType != dataType || |a.items| != count then None else Some(a)
      ensures name !in old(attrs) ==>
        && r.Some? && fresh(r.value)
        && attrs == old(attrs)[name := r.value]
        && r.value.Value() == Created(index, dataType, size, count)
    {
      if name in attrs {
        var a := attrs[name];
        if a.dataType != dataType || |a.items| != count {
          r := None;
        } else {
          r := Some(a);
        }
      } else {
        r := Add(name, index, dataType, size, count);
      }
    }

    /** Removes every attribute. */
    method Clear()
      modifies this
      ensures Valid()
      ensures Size() == 0 && attrs == map[]
    {
      attrs := map[];
    }

    /** Whether any value has changed: true iff some entry is dirty. */
    method IsDirty() returns (r: bool)
      ensures r <==> exists n :: n in attrs && attrs[n].dirty
    {
      var rest := attrs.Keys;
      while rest != {}
        invariant rest <= attrs.Keys
        invariant forall n :: n in attrs && n !in rest ==> !attrs[n].dirty
        decreases rest
      {
        var n :| n in rest;
        if attrs[n].dirty {
          return true;
        }
        rest := rest - {n};
      }
      r := false;
    }

    /** The largest count of the attribute elements. */
    method GetMaxCount() returns (r: nat)
      ensures r == MaxCount()
    {
      var rest := attrs.Keys;
      r := 0;
      while rest != {}
        invariant rest <= attrs.Keys
        invariant forall n :: n in attrs && n !in rest ==> |attrs[n].items| <= r
        invariant r == 0 || exists n :: n in attrs && |attrs[n].items| == r
        decreases rest
      {
        var n :| n in rest;
        if r < |attrs[n].items| {
          r := |attrs[n].items|;
        }
        rest := rest - {n};
      }
      MaxCountIsMax();
      MaxCountUnique(r, MaxCount());
    }

    /** The largest count is determined by the entries. */
    lemma MaxCountUnique(a: nat, b: nat)
      requires IsMaxCount(a) && IsMaxCount(b)
      ensures a == b
    {
    }

    /** The sum of the strides, the size of one interleaved vertex. */
    method GetTotalSize() returns (r: int)
      ensures r == Sum(Strides())
    {
      var rest := attrs.Keys;
      r := 0;
      while rest != {}
        invariant rest <= attrs.Keys
        invariant r + Sum(map n | n in rest :: attrs[n].stride) == Sum(Strides())
        decreases rest
      {
        var n :| n in rest;
        ghost var m := map k | k in rest :: attrs[k].stride;
        SumRemove(m, n);
        assert m - {n} == map k | k in rest - {n} :: attrs[k].stride;
        r := r + attrs[n].stride;
        rest := rest - {n};
      }
    }

    /** Every (name, attribute) pair, each name exactly once. */
    method ObserveAttributes() returns (visits: seq<(string, VertexAttribute)>)
      ensures forall k :: 0 <= k < |visits| ==> visits[k].0 in attrs && visits[k].1 == attrs[visits[k].0]
      ensures forall n :: n in attrs ==> exists k :: 0 <= k < |visits| && visits[k].0 == n
      ensures forall j, k :: 0 <= j < k < |visits| ==> visits[j].0 != visits[k].0
    {
      var rest := attrs.Keys;
      visits := [];
      while rest != {}
        invariant rest <= attrs.Keys
        invariant forall k :: 0 <= k < |visits| ==> visits[k].0 in attrs && visits[k].0 !in rest && visits[k].1 == attrs[visits[k].0]
        invariant forall n :: n in attrs && n !in rest ==> exists k :: 0 <= k < |visits| && visits[k].0 == n
        invariant forall j, k :: 0 <= j < k < |visits| ==> visits[j].0 != visits[k].0
        decreases rest
      {
        var n :| n in rest;
        ghost var before := visits;
        visits := visits + [(n, attrs[n])];
        forall m | m in attrs && m !in rest - {n}
          ensures exists k :: 0 <= k < |visits| && visits[k].0 == m
        {
          if m == n {
            assert visits[|before|].0 == m;
          } else {
            var k :| 0 <= k < |before| && before[k].0 == m;
            assert visits[k].0 == m;
          }
        }
        rest := rest - {n};
      }
    }

    /** Calls the delegate once for every default (every entry of this
        array), passing the override of the same name when one exists;
        names present only in the overrides are not visited. */
    method Resolve(overrides: VertexAttributeArray) returns (calls: seq<ResolveCall>)
      ensures forall k :: 0 <= k < |calls| ==>
        && calls[k].name in attrs
        && calls[k].default == attrs[calls[k].name]
        && calls[k].override == Lookup(overrides.attrs, calls[k].name)
      ensures forall n :: n in attrs ==> exists k :: 0 <= k < |calls| && calls[k].name == n
      ensures forall j, k :: 0 <= j < k < |calls| ==> calls[j].name != calls[k].name
    {
      var visits := ObserveAttributes();
      calls := [];
      var i := 0;
      while i < |visits|
        invariant 0 <= i <= |visits|
        invariant |calls| == i
        invariant forall k :: 0 <= k < i ==>
          calls[k] == ResolveCall(visits[k].0, visits[k].1, Lookup(overrides.attrs, visits[k].0))
      {
        calls := calls + [ResolveCall(visits[i].0, visits[i].1, overrides.Get(visits[i].0))];
        i := i + 1;
      }
    }

    /** Copy assignment: every entry is replaced by a copy of the other
        array's entry of the same name. */
    method Assign(other: VertexAttributeArray)
      requires other != this && other.Valid()
      modifies this
      ensures Valid()
      ensures Snapshot() == old(other.Snapshot())
      ensures forall n :: n in attrs ==> fresh(attrs[n])
    {
      var rest := other.attrs.Keys;
      var copies: map<string, VertexAttribute> := map[];
      while rest != {}
        invariant rest <= other.attrs.Keys
        invariant copies.Keys == other.attrs.Keys - rest
        invariant forall n :: n in copies ==> fresh(copies[n]) && copies[n].Valid()
        invariant forall n :: n in copies ==> copies[n].Value() == other.attrs[n].Value()
        invariant forall n, m :: n in copies && m in copies && n != m ==> copies[n] != copies[m]
        decreases rest
      {
        var n :| n in rest;
        var a := new VertexAttribute.Copy(other.attrs[n]);
        copies := copies[n := a];
        rest := rest - {n};
      }
      attrs := copies;
    }
  }
}
