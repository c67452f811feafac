/**
 * The callbacks a C worker uses to build stream descriptors and filters
 * (c_mcai_worker_sdk/src/media/filters.rs). Heap boxes handed to the worker
 * as raw pointers are modelled as handles into a registry.
 */
module FilterGraph {
  import opened Wrappers
  import opened Filters
  import opened StreamDescriptors

  /** A raw pointer crossing the ABI: null or a live handle. */
  datatype Ptr = Null | At(handle: nat)

  /** A `const char*`: null or a C string. */
  datatype CStr = NullStr | Str(text: string)

  /** `get_c_string!`: a null pointer reads as the empty string. */
  function GetCString(s: CStr): (r: string)
    ensures s.Str? ==> r == s.text
    ensures s.NullStr? ==> r == ""
  {
    match s
    case NullStr => ""
    case Str(text) => text
  }

  /** The boxes currently handed out, and the next unused address. */
  datatype Registry = Registry(
    descriptors: map<nat, CStreamDescriptor>,
    filters: map<nat, GenericFilter>,
    next: nat)

  /** Handles are positive, below `next`, and no box is both kinds. */
  predicate Valid(reg: Registry) {
    && reg.next >= 1
    && (forall h :: h in reg.descriptors ==> 1 <= h < reg.next)
    && (forall h :: h in reg.filters ==> 1 <= h < reg.next)
    && reg.descriptors.Keys !! reg.filters.Keys
  }

  const Empty: Registry := Registry(map[], map[], 1)

  lemma EmptyValid()
    ensures Valid(Empty)
  {
  }

  /**
   * `new_stream_descriptor(index, c_stream_type)`: the type code is cut to a
   * byte (`as u8`); an unknown code gives a null pointer and no allocation.
   */
  function NewStreamDescriptor(reg: Registry, index: nat, streamTypeCode: nat): (res: (Registry, Ptr))
    requires Valid(reg)
    ensures Valid(res.0)
    ensures res.1.Null? <==> streamTypeCode % 256 >= 3
    ensures res.1.Null? ==> res.0 == reg
    ensures res.1.At? ==> res.1.handle == reg.next && res.0.next == reg.next + 1
    ensures res.1.At? ==>
              && res.1.handle !in reg.descriptors && res.1.handle !in reg.filters
              && res.0.descriptors.Keys == reg.descriptors.Keys + {res.1.handle}
              && (forall h :: h in reg.descriptors ==> res.0.descriptors[h] == reg.descriptors[h])
              && res.0.filters == reg.filters
              && var d := res.0.descriptors[res.1.handle];
                 d.index == index && Code(d.streamType) == streamTypeCode % 256 && d.filters == []
  {
    match TryFromCode(streamTypeCode % 256)
    case Err(_) => (reg, Null)
    case Ok(t) =>
      var h := reg.next;
      (Registry(reg.descriptors[h := CStreamDescriptor(index, t, [])], reg.filters, h + 1), At(h))
  }

  /** `new_filter(name, label)`: a null label is no label; parameters start empty. */
  function NewFilter(reg: Registry, name: CStr, labelText: CStr): (res: (Registry, Ptr))
    requires Valid(reg)
    ensures Valid(res.0)
    ensures res.1.At?
    ensures res.1.handle !in reg.descriptors && res.1.handle !in reg.filters
    ensures res.1.handle == reg.next && res.0.next == reg.next + 1
    ensures res.0.descriptors == reg.descriptors
    ensures res.0.filters.Keys == reg.filters.Keys + {res.1.handle}
    ensures forall h :: h in reg.filters ==> res.0.filters[h] == reg.filters[h]
    ensures var f := res.0.filters[res.1.handle];
            && f.name == GetCString(name)
            && (labelText.NullStr? <==> f.filterLabel.None?)
            && (labelText.Str? ==> f.filterLabel == Some(labelText.text))
            && f.parameters == map[]
  {
    var h := reg.next;
    var filterLabel := if labelText.NullStr? then None else Some(GetCString(labelText));
    (Registry(reg.descriptors, reg.filters[h := GenericFilter(GetCString(name), filterLabel, map[])], h + 1), At(h))
  }

  /**
   * `add_filter_parameter(filter, key, value)`: inserts into the hash map, so
   * a repeated key overwrites. The pointer must be a live filter.
   */
  function AddFilterParameter(reg: Registry, filter: nat, key: CStr, value: CStr): (r: Registry)
    requires Valid(reg) && filter in reg.filters
    ensures Valid(r)
    ensures r.descriptors == reg.descriptors && r.next == reg.next
    ensures r.filters.Keys == reg.filters.Keys
    ensures forall h :: h in reg.filters && h != filter ==> r.filters[h] == reg.filters[h]
    ensures r.filters[filter].name == reg.filters[filter].name
    ensures r.filters[filter].filterLabel == reg.filters[filter].filterLabel
    ensures GetCString(key) in r.filters[filter].parameters
    ensures r.filters[filter].parameters[GetCString(key)] == GetCString(value)
    ensures r.filters[filter].parameters.Keys == reg.filters[filter].parameters.Keys + {GetCString(key)}
    ensures forall k :: k in reg.filters[filter].parameters && k != GetCString(key) ==>
              r.filters[filter].parameters[k] == reg.filters[filter].parameters[k]
  {
    var f := reg.filters[filter];
    var updated := f.(parameters := f.parameters[GetCString(key) := GetCString(value)]);
    reg.(filters := reg.filters[filter := updated])
  }

  /**
   * `add_descriptor_filter(descriptor, filter)`: the filter box is moved into
   * the descriptor's list, at the end; its pointer is no longer live.
   */
  function AddDescriptorFilter(reg: Registry, descriptor: nat, filter: nat): (r: Registry)
    requires Valid(reg) && descriptor in reg.descriptors && filter in reg.filters
    ensures Valid(r)
    ensures r.next == reg.next
    ensures r.filters == reg.filters - {filter}
    ensures r.descriptors.Keys == reg.descriptors.Keys
    ensures forall h :: h in reg.descriptors && h != descriptor ==> r.descriptors[h] == reg.descriptors[h]
    ensures r.descriptors[descriptor].index == reg.descriptors[descriptor].index
    ensures r.descriptors[descriptor].streamType == reg.descriptors[descriptor].streamType
    ensures |r.descriptors[descriptor].filters| == |reg.descriptors[descriptor].filters| + 1
    ensures r.descriptors[descriptor].filters[..|reg.descriptors[descriptor].filters|] == reg.descriptors[descriptor].filters
    ensures r.descriptors[descriptor].filters[|reg.descriptors[descriptor].filters|] == reg.filters[filter]
  {
    var d := reg.descriptors[descriptor];
    var updated := d.(filters := d.filters + [reg.filters[filter]]);
    Registry(reg.descriptors[descriptor := updated], reg.filters - {filter}, reg.next)
  }

  /** Setting the same key twice keeps only the second value. */
  lemma ParameterOverwrite(reg: Registry, filter: nat, key: CStr, first: CStr, second: CStr)
    requires Valid(reg) && filter in reg.filters
    ensures var once := AddFilterParameter(reg, filter, key, first);
            AddFilterParameter(once, filter, key, second) == AddFilterParameter(reg, filter, key, second)
  {
    var once := AddFilterParameter(reg, filter, key, first);
    var twice := AddFilterParameter(once, filter, key, second);
    var direct := AddFilterParameter(reg, filter, key, second);
    assert twice.filters[filter] == direct.filters[filter];
    assert twice.filters == direct.filters;
  }

  /** Parameters under different keys can be added in either order. */
  lemma ParametersCommute(reg: Registry, filter: nat, k1: CStr, v1: CStr, k2: CStr, v2: CStr)
    requires Valid(reg) && filter in reg.filters
    requires GetCString(k1) != GetCString(k2)
    ensures var a := AddFilterParameter(AddFilterParameter(reg, filter, k1, v1), filter, k2, v2);
            var b := AddFilterParameter(AddFilterParameter(reg, filter, k2, v2), filter, k1, v1);
            a == b
  {
    var a := AddFilterParameter(AddFilterParameter(reg, filter, k1, v1), filter, k2, v2);
    var b := AddFilterParameter(AddFilterParameter(reg, filter, k2, v2), filter, k1, v1);
    var f := reg.filters[filter];
    var ka, va, kb, vb := GetCString(k1), GetCString(v1), GetCString(k2), GetCString(v2);
    UpdatesCommute(f.parameters, ka, va, kb, vb);
    assert a.filters[filter] == f.(parameters := f.parameters[ka := va][kb := vb]);
    assert b.filters[filter] == f.(parameters := f.parameters[kb := vb][ka := va]);
    assert a.filters == b.filters;
  }

  /** Two map updates at different keys commute. */
  lemma UpdatesCommute(m: map<string, string>, ka: string, va: string, kb: string, vb: string)
    requires ka != kb
    ensures m[ka := va][kb := vb] == m[kb := vb][ka := va]
  {
  }

  /**
   * The callback sequence of the binding's test with parameters: a descriptor
   * (1, audio); a first filter with two parameters under distinct keys, added;
   * a second filter with the first parameter only, added. The descriptor then
   * holds both filters, in that order, with exactly those parameters.
   */
  lemma BuildExample(name1: string, label1: string, name2: string, label2: string,
                     key1: string, value1: string, key2: string, value2: string)
    requires key1 != key2
    ensures var (r1, d) := NewStreamDescriptor(Empty, 1, 1);
            var (r2, f1) := NewFilter(r1, Str(name1), Str(label1));
            var r3 := AddFilterParameter(r2, f1.handle, Str(key1), Str(value1));
            var r4 := AddFilterParameter(r3, f1.handle, Str(key2), Str(value2));
            var r5 := AddDescriptorFilter(r4, d.handle, f1.handle);
            var (r6, f2) := NewFilter(r5, Str(name2), Str(label2));
            var r7 := AddFilterParameter(r6, f2.handle, Str(key1), Str(value1));
            var r8 := AddDescriptorFilter(r7, d.handle, f2.handle);
            r8.descriptors[d.handle] == CStreamDescriptor(1, AudioStream, [
              GenericFilter(name1, Some(label1), map[key1 := value1, key2 := value2]),
              GenericFilter(name2, Some(label2), map[key1 := value1])])
  {
    var (r1, d) := NewStreamDescriptor(Empty, 1, 1);
    assert r1.descriptors[d.handle] == CStreamDescriptor(1, AudioStream, []);
    AttachTwo(r1, d.handle, name1, label1, key1, value1, key2, value2);
    var (r2, f1) := NewFilter(r1, Str(name1), Str(label1));
    var r3 := AddFilterParameter(r2, f1.handle, Str(key1), Str(value1));
    var r4 := AddFilterParameter(r3, f1.handle, Str(key2), Str(value2));
    var r5 := AddDescriptorFilter(r4, d.handle, f1.handle);
    AttachOne(r5, d.handle, name2, label2, key1, value1);
  }

  /** A new filter with one parameter, moved into a descriptor, lands at the end of its list. */
  lemma AttachOne(reg: Registry, descriptor: nat, name: string, labelText: string, key: string, value: string)
    requires Valid(reg) && descriptor in reg.descriptors
    ensures var (r1, f) := NewFilter(reg, Str(name), Str(labelText));
            var r2 := AddFilterParameter(r1, f.handle, Str(key), Str(value));
            var r3 := AddDescriptorFilter(r2, descriptor, f.handle);
            r3.descriptors[descriptor] == reg.descriptors[descriptor].(filters :=
              reg.descriptors[descriptor].filters + [GenericFilter(name, Some(labelText), map[key := value])])
  {
    var (r1, f) := NewFilter(reg, Str(name), Str(labelText));
    var r2 := AddFilterParameter(r1, f.handle, Str(key), Str(value));
    assert r2.filters[f.handle] == GenericFilter(name, Some(labelText), map[key := value]);
    var r3 := AddDescriptorFilter(r2, descriptor, f.handle);
    assert r3.descriptors[descriptor].filters == reg.descriptors[descriptor].filters + [r2.filters[f.handle]];
  }

  /** The same with two parameters under distinct keys; the result is again a valid registry. */
  lemma AttachTwo(reg: Registry, descriptor: nat, name: string, labelText: string,
                  key1: string, value1: string, key2: string, value2: string)
    requires Valid(reg) && descriptor in reg.descriptors && key1 != key2
    ensures var (r1, f) := NewFilter(reg, Str(name), Str(labelText));
            var r2 := AddFilterParameter(r1, f.handle, Str(key1), Str(value1));
            var r3 := AddFilterParameter(r2, f.handle, Str(key2), Str(value2));
            var r4 := AddDescriptorFilter(r3, descriptor, f.handle);
            && Valid(r4) && descriptor in r4.descriptors
            && r4.descriptors[descriptor] == reg.descriptors[descriptor].(filters :=
                 reg.descriptors[descriptor].filters + [GenericFilter(name, Some(labelText), map[key1 := value1, key2 := value2])])
  {
    var (r1, f) := NewFilter(reg, Str(name), Str(labelText));
    var r2 := AddFilterParameter(r1, f.handle, Str(key1), Str(value1));
    var r3 := AddFilterParameter(r2, f.handle, Str(key2), Str(value2));
    assert r3.filters[f.handle].parameters == map[key1 := value1, key2 := value2];
    assert r3.filters[f.handle] == GenericFilter(name, Some(labelText), map[key1 := value1, key2 := value2]);
    var r4 := AddDescriptorFilter(r3, descriptor, f.handle);
    assert r4.descriptors[descriptor].filters == reg.descriptors[descriptor].filters + [r3.filters[f.handle]];
  }
}
