/**
 The sidecar file that remembers an instance's host ports: a tolerant reader and
 an atomic writer.
 */
module StickyPorts {
  import opened Values

  type Ports = map<string, int>

  /** A JSON value, by what int() makes of it. */
  datatype Value =
    | Number(n: int)
    | Real(whole: int)              // truncated
    | Infinite                      // OverflowError
    | NaN                           // ValueError
    | Text(parsed: Option<int>)     // ValueError when it is no integer
    | Flag(on: bool)
    | Other                         // null, list, mapping: TypeError

  /** What the path holds. Names of a mapping are distinct. */
  datatype Document = Missing | Unreadable | NotAMapping | Mapping(entries: seq<(string, Value)>)

  datatype Coerced = Reads(n: int) | Dropped | Overflows

  function IntOf(v: Value): Coerced {
    match v
    case Number(n) => Reads(n)
    case Real(whole) => Reads(whole)
    case Infinite => Overflows
    case NaN => Dropped
    case Text(parsed) => if parsed.Some? then Reads(parsed.value) else Dropped
    case Flag(on) => Reads(if on then 1 else 0)
    case Other => Dropped
  }

  /** The entries that can be read; None is the OverflowError nobody catches. */
  function Readable(entries: seq<(string, Value)>): Option<Ports> {
    if entries == [] then Some(map[])
    else
      var before, last := Readable(entries[..|entries| - 1]), entries[|entries| - 1];
      if before.None? then None
      else match IntOf(last.1)
        case Reads(n) => Some(before.value[last.0 := n])
        case Dropped => before
        case Overflows => None
  }

  function Loaded(d: Document): Option<Ports> {
    if d.Mapping? then Readable(d.entries) else Some(map[])
  }

  ghost predicate DistinctNames(entries: seq<(string, Value)>) {
    forall i, j :: 0 <= i < j < |entries| ==> entries[i].0 != entries[j].0
  }

  /** The entry says this port: as an integer, as a fraction cut off, as text, or as a flag. */
  predicate Says(v: Value, n: int) {
    v == Number(n) || v == Real(n) || v == Text(Some(n)) || (v == Flag(true) && n == 1) || (v == Flag(false) && n == 0)
  }

  /** A damaged file costs only its damaged entries. */
  lemma {:induction false} DamageIsLocal(entries: seq<(string, Value)>, name: string, n: int)
    requires DistinctNames(entries) && Readable(entries).Some?
    ensures (name in Readable(entries).value && Readable(entries).value[name] == n) <==>
      exists i :: 0 <= i < |entries| && entries[i].0 == name && Says(entries[i].1, n)
  {
    if entries != [] {
      var front, last := entries[..|entries| - 1], entries[|entries| - 1];
      DamageIsLocal(front, name, n);
      forall i | 0 <= i < |front| ensures front[i] == entries[i] && (front[i].0 == name ==> last.0 != name) {
      }
      if name in Readable(front).value {
        NamesOf(front, name);
      }
    }
  }

  lemma {:induction false} NamesOf(entries: seq<(string, Value)>, name: string)
    requires Readable(entries).Some? && name in Readable(entries).value
    ensures exists i :: 0 <= i < |entries| && entries[i].0 == name
    decreases |entries|
  {
    var front, last := entries[..|entries| - 1], entries[|entries| - 1];
    if last.0 != name {
      NamesOf(front, name);
    }
  }

  /** "Drop anything malformed rather than crash a start" holds of every file but one with an infinite number. */
  lemma {:induction false} CrashesIff(entries: seq<(string, Value)>)
    ensures Loaded(Mapping(entries)).None? <==> exists i :: 0 <= i < |entries| && entries[i].1.Infinite?
  {
    if entries != [] {
      var front := entries[..|entries| - 1];
      CrashesIff(front);
      assert forall i :: 0 <= i < |front| ==> front[i] == entries[i];
    }
  }

  /** How far a save gets: killed before the replace, an error before it, or through. */
  datatype Fate = KilledEarly | Fails | Completes

  class Sidecar {
    var file: Document
    var temps: nat   // temporary files left beside it

    /** load */
    method Load() returns (ports: Option<Ports>)
      ensures ports == Loaded(file)
    {
      if !file.Mapping? {
        return Some(map[]);
      }
      var out: Ports := map[];
      for i := 0 to |file.entries|
        invariant Readable(file.entries[..i]) == Some(out)
      {
        assert file.entries[..i + 1][..i] == file.entries[..i];
        match IntOf(file.entries[i].1) {
          case Reads(n) => out := out[file.entries[i].0 := n];
          case Dropped =>
          case Overflows =>
            StaysUnreadable(file.entries, i + 1);
            return None;
        }
      }
      assert file.entries[..|file.entries|] == file.entries;
      return Some(out);
    }

    /** save; a reader, or a process after a kill, finds the old file or the new one whole. */
    method Save(mapping: Ports, fate: Fate) returns (ok: bool)
      modifies this
      ensures ok <==> fate.Completes?
      ensures if ok then Loaded(file) == Some(mapping) && file.Mapping? else file == old(file)
      ensures temps == if fate.KilledEarly? then old(temps) + 1 else old(temps)
    {
      var entries: seq<(string, Value)> := [];
      var items := mapping.Items;
      ghost var done: Ports := map[];
      while items != {}
        invariant Readable(entries) == Some(done) && items <= mapping.Items
        invariant forall k :: k in done ==> k in mapping && done[k] == mapping[k]
        invariant forall item :: item in mapping.Items ==> item in items || item.0 in done
        decreases items
      {
        var item :| item in items;
        assert item.0 in mapping && mapping[item.0] == item.1;
        var longer := entries + [(item.0, Number(item.1))];
        assert longer[..|longer| - 1] == entries;
        entries, items, done := longer, items - {item}, done[item.0 := item.1];
      }
      assert done == mapping by {
        forall k | k in mapping ensures k in done {
          assert (k, mapping[k]) in mapping.Items;
        }
      }
      temps := temps + 1;
      if fate.KilledEarly? {
        return false;
      }
      temps := temps - 1;
      if fate.Fails? {
        return false;
      }
      file := Mapping(entries);
      return true;
    }
  }

  lemma {:induction false} StaysUnreadable(entries: seq<(string, Value)>, i: nat)
    requires i <= |entries| && Readable(entries[..i]).None?
    ensures Readable(entries).None?
    decreases |entries|
  {
    if i == |entries| {
      assert entries[..i] == entries;
    } else {
      var front := entries[..|entries| - 1];
      assert front[..i] == entries[..i];
      StaysUnreadable(front, i);
    }
  }
}
