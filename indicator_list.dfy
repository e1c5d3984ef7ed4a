/**
 * The indicator list of the app (App.jsx `addIndicator`, `updateIndicator`, `removeIndicator`,
 * `removeIndicatorGroup`, `toggleIndicator`): every updater maps the old list to a new one. An
 * entry is a JavaScript object, modelled as a map from property names to values, so the spread
 * `{ ...ind, ...updates }` is map override.
 */
module IndicatorList {

  /** A property value of an entry. */
  datatype Value = Str(s: string) | Num(x: real) | Bool(b: bool)

  type Entry = map<string, Value>

  /** JavaScript truthiness of a property; a missing property is falsy. */
  function Truthy(e: Entry, key: string): bool
  {
    if key !in e then false
    else match e[key]
      case Bool(b) => b
      case Num(x) => x != 0.0
      case Str(s) => s != ""
  }

  /** `ind.id === id` */
  predicate HasId(e: Entry, id: string)
  {
    "id" in e && e["id"] == Str(id)
  }

  /** `ind.type === type` */
  predicate HasType(e: Entry, t: string)
  {
    "type" in e && e["type"] == Str(t)
  }

  /** The entries of s that keep holds, in order (`Array.prototype.filter`). */
  function Filter(s: seq<Entry>, keep: Entry -> bool): seq<Entry>
  {
    if |s| == 0 then [] else Filter(s[..|s| - 1], keep) + (if keep(s[|s| - 1]) then [s[|s| - 1]] else [])
  }

  // ---------------------------------------------------------------------------
  // The default entries

  const DefaultSmaLengths: seq<int> := [5, 10, 20, 50, 100, 200, 7, 14, 30, 150]

  /** `SMA_COLORS` of sma.js. */
  const SmaColors: seq<string> :=
    ["#2962ff", "#ff9800", "#e91e63", "#4caf50", "#9c27b0", "#ffeb3b", "#00bcd4", "#673ab7", "#8bc34a", "#f44336"]

  /** SMA slot i, `sma-${i}`: one of the ten default lengths, visible only for the first three. */
  function SmaSlot(i: int): Entry
    requires 0 <= i < 10
  {
    map["id" := Str("sma-" + [(48 + i) as char]), "type" := Str("sma"), "length" := Num(DefaultSmaLengths[i] as real),
        "source" := Str("close"), "visible" := Bool(i < 3), "color" := Str(SmaColors[i])]
  }

  function SmaSlots(): seq<Entry>
  {
    seq(10, i requires 0 <= i < 10 => SmaSlot(i))
  }

  const RsiEntry: Entry :=
    map["id" := Str("rsi-main"), "type" := Str("rsi"), "length" := Num(14.0), "source" := Str("close"),
        "visible" := Bool(true), "smoothingType" := Str("SMA"), "smoothingLength" := Num(10.0), "showBB" := Bool(true),
        "color" := Str("#2962ff"), "smoothColor" := Str("#ff9800"), "bbColor" := Str("rgba(255, 255, 255, 0.3)")]

  const MacdEntry: Entry :=
    map["id" := Str("macd-main"), "type" := Str("macd"), "fastLength" := Num(12.0), "slowLength" := Num(26.0),
        "signalLength" := Num(9.0), "normLookback" := Num(100.0), "visible" := Bool(true),
        "color" := Str("#2962ff"), "signalColor" := Str("#ff9800")]

  // ---------------------------------------------------------------------------
  // The updaters

  /** Is there already an entry of type t (`indicators.some(i => i.type === t)`)? */
  predicate Exists(list: seq<Entry>, t: string)
  {
    exists k :: 0 <= k < |list| && HasType(list[k], t)
  }

  /** `addIndicator(type)` */
  function AddIndicator(list: seq<Entry>, t: string): (r: seq<Entry>)
    ensures |list| <= |r| && r[..|list|] == list
    ensures forall k :: |list| <= k < |r| ==> HasType(r[k], t)
  {
    if t == "sma" then list + SmaSlots()
    else if t == "rsi" then (if Exists(list, "rsi") then list else list + [RsiEntry])
    else if t == "macd" then (if Exists(list, "macd") then list else list + [MacdEntry])
    else list
  }

  /** `updateIndicator(id, updates)`: the entries with that id get the updates merged over them. */
  function UpdateIndicator(list: seq<Entry>, id: string, updates: Entry): (r: seq<Entry>)
    ensures |r| == |list|
    ensures forall k :: 0 <= k < |list| && !HasId(list[k], id) ==> r[k] == list[k]
    ensures forall k :: 0 <= k < |list| && HasId(list[k], id) ==> r[k].Keys == list[k].Keys + updates.Keys
  {
    seq(|list|, k requires 0 <= k < |list| => if HasId(list[k], id) then list[k] + updates else list[k])
  }

  /** `toggleIndicator(id)`: the entries with that id get `visible: !visible`. */
  function ToggleIndicator(list: seq<Entry>, id: string): (r: seq<Entry>)
    ensures |r| == |list|
    ensures forall k :: 0 <= k < |list| && !HasId(list[k], id) ==> r[k] == list[k]
    ensures forall k :: 0 <= k < |list| && HasId(list[k], id) ==> Truthy(r[k], "visible") != Truthy(list[k], "visible")
  {
    seq(|list|, k requires 0 <= k < |list| =>
      if HasId(list[k], id) then list[k]["visible" := Bool(!Truthy(list[k], "visible"))] else list[k])
  }

  /** `removeIndicator(id)` */
  function RemoveIndicator(list: seq<Entry>, id: string): (r: seq<Entry>)
    ensures |r| <= |list|
    ensures forall e :: e in r ==> e in list && !HasId(e, id)
  {
    var keep := e => !HasId(e, id);
    FilterMembers(list, keep);
    Filter(list, keep)
  }

  /** `removeIndicatorGroup(type)` */
  function RemoveIndicatorGroup(list: seq<Entry>, t: string): (r: seq<Entry>)
    ensures |r| <= |list|
    ensures forall e :: e in r ==> e in list && !HasType(e, t)
  {
    var keep := e => !HasType(e, t);
    FilterMembers(list, keep);
    Filter(list, keep)
  }

  // ---------------------------------------------------------------------------
  // Properties of Filter

  /** Filter keeps exactly the entries keep accepts. */
  lemma {:induction false} FilterMembers(s: seq<Entry>, keep: Entry -> bool)
    ensures forall e :: e in Filter(s, keep) <==> e in s && keep(e)
    ensures |Filter(s, keep)| <= |s|
  {
    if |s| > 0 {
      FilterMembers(s[..|s| - 1], keep);
      assert s == s[..|s| - 1] + [s[|s| - 1]];
    }
  }

  /** Filter keeps order: filtering a concatenation concatenates the filtered parts. */
  lemma {:induction false} FilterAppend(a: seq<Entry>, b: seq<Entry>, keep: Entry -> bool)
    ensures Filter(a + b, keep) == Filter(a, keep) + Filter(b, keep)
  {
    if |b| == 0 {
      assert a + b == a;
    } else {
      FilterAppend(a, b[..|b| - 1], keep);
      assert (a + b)[..|a + b| - 1] == a + b[..|b| - 1];
    }
  }

  /** When keep accepts every entry, Filter returns the list unchanged. */
  lemma {:induction false} FilterAll(s: seq<Entry>, keep: Entry -> bool)
    requires forall k :: 0 <= k < |s| ==> keep(s[k])
    ensures Filter(s, keep) == s
  {
    if |s| > 0 {
      FilterAll(s[..|s| - 1], keep);
    }
  }

  // ---------------------------------------------------------------------------
  // Properties of the updaters

  /** Adding 'sma' appends the ten default slots; only the first three are visible. */
  lemma AddSma(list: seq<Entry>)
    ensures |AddIndicator(list, "sma")| == |list| + 10
    ensures AddIndicator(list, "sma")[..|list|] == list
    ensures forall i :: 0 <= i < 10 ==>
      HasType(AddIndicator(list, "sma")[|list| + i], "sma")
        && AddIndicator(list, "sma")[|list| + i]["length"] == Num(DefaultSmaLengths[i] as real)
        && (Truthy(AddIndicator(list, "sma")[|list| + i], "visible") <==> i < 3)
  {
  }

  /** RSI and MACD are single entries: adding one that exists changes nothing, otherwise it is appended. */
  lemma AddSingle(list: seq<Entry>, t: string)
    requires t == "rsi" || t == "macd"
    ensures Exists(list, t) ==> AddIndicator(list, t) == list
    ensures !Exists(list, t) ==>
      |AddIndicator(list, t)| == |list| + 1 && AddIndicator(list, t)[..|list|] == list && HasType(AddIndicator(list, t)[|list|], t)
    ensures Exists(AddIndicator(list, t), t)
  {
    if !Exists(list, t) {
      assert HasType(AddIndicator(list, t)[|list|], t);
    } else {
      var k :| 0 <= k < |list| && HasType(list[k], t);
    }
  }

  /** Adding an RSI or MACD twice gives the same list as adding it once. */
  lemma AddSingleIdempotent(list: seq<Entry>, t: string)
    requires t == "rsi" || t == "macd"
    ensures AddIndicator(AddIndicator(list, t), t) == AddIndicator(list, t)
  {
    AddSingle(list, t);
    AddSingle(AddIndicator(list, t), t);
  }

  /** An unknown type leaves the list as it is. */
  lemma AddUnknown(list: seq<Entry>, t: string)
    requires t != "sma" && t != "rsi" && t != "macd"
    ensures AddIndicator(list, t) == list
  {
  }

  /** Updating changes only the entries with the id, each by overriding exactly the updated properties. */
  lemma UpdateOnly(list: seq<Entry>, id: string, updates: Entry)
    ensures forall k :: 0 <= k < |list| && !HasId(list[k], id) ==> UpdateIndicator(list, id, updates)[k] == list[k]
    ensures forall k, key :: 0 <= k < |list| && HasId(list[k], id) && key in updates ==>
      key in UpdateIndicator(list, id, updates)[k] && UpdateIndicator(list, id, updates)[k][key] == updates[key]
    ensures forall k, key :: 0 <= k < |list| && HasId(list[k], id) && key !in updates && key in list[k] ==>
      key in UpdateIndicator(list, id, updates)[k] && UpdateIndicator(list, id, updates)[k][key] == list[k][key]
  {
  }

  /** Two updates of an entry that keep its id are one update with both, the later winning. */
  lemma UpdateTwice(list: seq<Entry>, id: string, u1: Entry, u2: Entry)
    requires "id" !in u1
    ensures UpdateIndicator(UpdateIndicator(list, id, u1), id, u2) == UpdateIndicator(list, id, u1 + u2)
  {
    var once := UpdateIndicator(list, id, u1);
    forall k | 0 <= k < |list|
      ensures UpdateIndicator(once, id, u2)[k] == UpdateIndicator(list, id, u1 + u2)[k]
    {
      if HasId(list[k], id) {
        assert HasId(once[k], id);
        assert list[k] + u1 + u2 == list[k] + (u1 + u2);
      }
    }
  }

  /** Toggling flips `visible` on the entries with the id and changes nothing else. */
  lemma ToggleOnly(list: seq<Entry>, id: string)
    ensures forall k :: 0 <= k < |list| && !HasId(list[k], id) ==> ToggleIndicator(list, id)[k] == list[k]
    ensures forall k :: 0 <= k < |list| && HasId(list[k], id) ==>
      Truthy(ToggleIndicator(list, id)[k], "visible") == !Truthy(list[k], "visible")
        && HasId(ToggleIndicator(list, id)[k], id)
        && ToggleIndicator(list, id)[k] - {"visible"} == list[k] - {"visible"}
  {
  }

  /** Toggling twice restores every entry whose `visible` is a boolean. */
  lemma ToggleTwice(list: seq<Entry>, id: string)
    requires forall k :: 0 <= k < |list| && HasId(list[k], id) ==> "visible" in list[k] && list[k]["visible"].Bool?
    ensures ToggleIndicator(ToggleIndicator(list, id), id) == list
  {
    var once := ToggleIndicator(list, id);
    forall k | 0 <= k < |list|
      ensures ToggleIndicator(once, id)[k] == list[k]
    {
      if HasId(list[k], id) {
        assert HasId(once[k], id);
        assert list[k]["visible" := Bool(!Truthy(list[k], "visible"))]["visible" := Bool(Truthy(list[k], "visible"))] == list[k];
      }
    }
  }

  /** Removing by id drops exactly the entries with that id. */
  lemma RemoveById(list: seq<Entry>, id: string)
    ensures forall e :: e in RemoveIndicator(list, id) <==> e in list && !HasId(e, id)
    ensures (forall k :: 0 <= k < |list| ==> !HasId(list[k], id)) ==> RemoveIndicator(list, id) == list
  {
    FilterMembers(list, e => !HasId(e, id));
    if forall k :: 0 <= k < |list| ==> !HasId(list[k], id) {
      FilterAll(list, e => !HasId(e, id));
    }
  }

  /** Removing a group drops exactly the entries of that type, after which the type can be added again. */
  lemma RemoveGroup(list: seq<Entry>, t: string)
    ensures forall e :: e in RemoveIndicatorGroup(list, t) <==> e in list && !HasType(e, t)
    ensures !Exists(RemoveIndicatorGroup(list, t), t)
  {
    FilterMembers(list, e => !HasType(e, t));
  }

  /** 'sma' has no existence check: adding it twice holds two entries with the id `sma-0`. */
  lemma SmaNotGuarded(list: seq<Entry>)
    ensures HasId(AddIndicator(AddIndicator(list, "sma"), "sma")[|list|], "sma-0")
    ensures HasId(AddIndicator(AddIndicator(list, "sma"), "sma")[|list| + 10], "sma-0")
  {
    assert HasId(SmaSlot(0), "sma-0");
  }
}
