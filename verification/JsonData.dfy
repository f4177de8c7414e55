// Values and texts handled by the JSON printer and parser.

module JsonData {

  // A Unicode string is the sequence of its code points.
  type Text = seq<nat>

  // An object as `dumps` walks over it.  A dictionary is the list of the pairs its
  // items() method yields, in whatever order the hash table produces them.
  datatype Tree =
    | NullObj
    | BoolObj(b: bool)
    | IntObj(n: int)
    | StrObj(s: Text)
    | ListObj(items: seq<Tree>)
    | DictObj(entries: seq<Entry>)

  datatype Entry = Entry(key: Text, value: Tree)

  // A value as `loads` builds it.  A dictionary is a map; a float keeps its source text.
  datatype Json =
    | Null
    | Bool(b: bool)
    | Int(n: int)
    | Float(literal: Text)
    | Str(s: Text)
    | List(items: seq<Json>)
    | Dict(m: map<Text, Json>)

  // The value an object denotes.  A dictionary denotes a map, so entry order is forgotten.
  function Value(t: Tree): Json
    decreases t, 1
  {
    match t
    case NullObj => Null
    case BoolObj(b) => Bool(b)
    case IntObj(n) => Int(n)
    case StrObj(s) => Str(s)
    case ListObj(items) => List(Values(items))
    case DictObj(entries) => Dict(Stored(map[], entries))
  }

  function Values(items: seq<Tree>): seq<Json>
    decreases items, 0
  {
    if items == [] then [] else [Value(items[0])] + Values(items[1..])
  }

  // The map m after storing the entries one after the other.
  function Stored(m: map<Text, Json>, entries: seq<Entry>): map<Text, Json>
    decreases entries, 0
  {
    if entries == [] then m
    else Stored(StoredOne(m, entries[0]), entries[1..])
  }

  function StoredOne(m: map<Text, Json>, e: Entry): map<Text, Json>
    decreases e, 2
  {
    m[e.key := Value(e.value)]
  }

  // With distinct keys every order of the entries denotes the same map: each key is bound to
  // its own value and there are no other keys.
  lemma {:induction false} StoredIsTheMap(m: map<Text, Json>, entries: seq<Entry>)
    requires forall i, j :: 0 <= i < j < |entries| ==> entries[i].key != entries[j].key
    ensures Stored(m, entries).Keys == m.Keys + (set i | 0 <= i < |entries| :: entries[i].key)
    ensures forall i :: 0 <= i < |entries| ==>
      entries[i].key in Stored(m, entries) && Stored(m, entries)[entries[i].key] == Value(entries[i].value)
    ensures forall k :: k in m && (forall i :: 0 <= i < |entries| ==> entries[i].key != k) ==>
      k in Stored(m, entries) && Stored(m, entries)[k] == m[k]
    decreases |entries|
  {
    if entries != [] {
      var tail := entries[1..];
      assert forall i :: 0 <= i < |tail| ==> tail[i] == entries[i + 1];
      assert forall i :: 1 <= i < |entries| ==> entries[i] == tail[i - 1];
      StoredIsTheMap(StoredOne(m, entries[0]), tail);
      KeysOfTail(entries);
    }
  }

  // A key that comes again is bound anew.
  lemma {:induction false} StoredLast(m: map<Text, Json>, entries: seq<Entry>, e: Entry)
    ensures Stored(m, entries + [e]) == Stored(m, entries)[e.key := Value(e.value)]
    decreases |entries|
  {
    var all := entries + [e];
    if entries == [] {
      assert all[1..] == [];
    } else {
      assert all[1..] == entries[1..] + [e];
      StoredLast(StoredOne(m, entries[0]), entries[1..], e);
    }
  }

  lemma KeysOfTail(entries: seq<Entry>)
    requires entries != []
    ensures (set i | 0 <= i < |entries| :: entries[i].key)
         == {entries[0].key} + (set i | 0 <= i < |entries[1..]| :: entries[1..][i].key)
  {
    var tail := entries[1..];
    var keys, tailKeys := set i | 0 <= i < |entries| :: entries[i].key, set i | 0 <= i < |tail| :: tail[i].key;
    forall k | k in keys ensures k in {entries[0].key} + tailKeys {
      var i :| 0 <= i < |entries| && entries[i].key == k;
      if i > 0 { assert tail[i - 1].key == k; }
    }
    forall k | k in tailKeys ensures k in keys {
      var i :| 0 <= i < |tail| && tail[i].key == k;
      assert entries[i + 1].key == k;
    }
  }
}
