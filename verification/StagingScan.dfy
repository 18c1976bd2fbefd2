/** What the reader makes of the items of a listing: which are counted, which are listed, and when it gives up. */
module StagingScan {
  import opened Text
  import opened Json
  import StagingNames

  const MAX_OBJECTS := 20000
  const MAX_CHECKED := 1_000_000

  /** StagingScan: entries looked at, staging names seen, and the objects listed. */
  datatype Scan = Scan(checked: nat, found: nat, objects: seq<(nat, Text)>)

  const EMPTY := Scan(0, 0, [])

  /** dict.get: the last member of that name. */
  function Get(members: seq<(Text, Value)>, key: Text): Option<Value> {
    if members == [] then None
    else if members[|members| - 1].0 == key then Some(members[|members| - 1].1)
    else Get(members[..|members| - 1], key)
  }

  const NAME: Text := Codes("Name")
  const IS_DIR: Text := Codes("IsDir")
  const PATH: Text := Codes("Path")

  /** A scan that goes on, or one that is refused with what it has collected. */
  datatype Outcome = Goes(scan: Scan) | Refused(scan: Scan)

  function Result(o: Outcome): Option<Scan> { if o.Goes? then Some(o.scan) else None }

  /** One entry of the listing. */
  function Count(scan: Scan, item: Value): (r: Outcome)
    ensures scan.objects <= r.scan.objects
  {
    if !item.Dict? then Refused(scan)
    else
      var name := Get(item.members, NAME);
      if name.None? || !name.value.Str? then Refused(scan)
      else
        var id := StagingNames.Match(name.value.text);
        var checked := scan.checked + 1;
        var path := Get(item.members, PATH);
        if id.Some? && Get(item.members, IS_DIR) != Some(True) && (path.None? || path == name) then
          if |scan.objects| >= MAX_OBJECTS then Refused(Scan(checked, scan.found + 1, scan.objects))
          else
            var next := Scan(checked, scan.found + 1, scan.objects + [(id.value, name.value.text)]);
            if checked > MAX_CHECKED then Refused(next) else Goes(next)
        else
          var next := Scan(checked, scan.found, scan.objects);
          if checked > MAX_CHECKED then Refused(next) else Goes(next)
  }

  function CountAll(scan: Scan, items: seq<Value>): Option<Scan>
    decreases |items|
  {
    if items == [] then Some(scan)
    else match Count(scan, items[0]) case Refused(_) => None case Goes(next) => CountAll(next, items[1..])
  }

  // ------------------------------------------------------------------ what is listed

  /** The last member of that name stands at `i`. */
  predicate IsLast(members: seq<(Text, Value)>, key: Text, i: nat) {
    i < |members| && members[i].0 == key && forall j | i < j < |members| :: members[j].0 != key
  }

  /** The last member of that name has the value. */
  ghost predicate Has(members: seq<(Text, Value)>, key: Text, value: Value) {
    exists i: nat | i < |members| :: IsLast(members, key, i) && members[i].1 == value
  }

  ghost predicate Lacks(members: seq<(Text, Value)>, key: Text) { forall i | 0 <= i < |members| :: members[i].0 != key }

  lemma {:induction false} GetIsLast(members: seq<(Text, Value)>, key: Text)
    ensures Get(members, key).None? <==> Lacks(members, key)
    ensures forall v :: Get(members, key) == Some(v) <==> Has(members, key, v)
  {
    if members != [] {
      var n := |members| - 1;
      if members[n].0 == key {
        assert IsLast(members, key, n);
        forall v | Has(members, key, v) ensures v == members[n].1 {
          var i: nat :| i < |members| && IsLast(members, key, i) && members[i].1 == v;
        }
      } else {
        GetIsLast(members[..n], key);
        forall v ensures Has(members, key, v) <==> Has(members[..n], key, v) {
          HasBefore(members, key, v);
        }
      }
    }
  }

  lemma HasBefore(members: seq<(Text, Value)>, key: Text, v: Value)
    requires members != [] && members[|members| - 1].0 != key
    ensures Has(members, key, v) <==> Has(members[..|members| - 1], key, v)
  {
    var front := members[..|members| - 1];
    if Has(members, key, v) {
      var i: nat :| i < |members| && IsLast(members, key, i) && members[i].1 == v;
      assert IsLast(front, key, i) && front[i].1 == v;
    }
    if Has(front, key, v) {
      var i: nat :| i < |front| && IsLast(front, key, i) && front[i].1 == v;
      assert IsLast(members, key, i) && members[i].1 == v;
    }
  }

  /** An object whose name is a text. */
  ghost predicate Named(item: Value, name: Text) { item.Dict? && Has(item.members, Codes("Name"), Str(name)) }

  ghost predicate IsEntry(item: Value) { exists name :: Named(item, name) }

  /** A file, not a directory, under the staging name of task `id`, in the listed directory itself. */
  ghost predicate Lists(item: Value, id: nat, name: Text) {
    && Named(item, name) && StagingNames.IsStagingName(name, id)
    && !Has(item.members, Codes("IsDir"), True)
    && (Lacks(item.members, Codes("Path")) || Has(item.members, Codes("Path"), Str(name)))
  }

  ghost predicate IsListed(item: Value) { exists id: nat, name :: Lists(item, id, name) }

  /** The positions of the listed items, in order. */
  ghost function Listed(items: seq<Value>): seq<nat> {
    if items == [] then []
    else
      var n := |items| - 1;
      Listed(items[..n]) + if IsListed(items[n]) then [n] else []
  }

  lemma {:induction false} ListedPositions(items: seq<Value>)
    ensures forall i, j | 0 <= i < j < |Listed(items)| :: Listed(items)[i] < Listed(items)[j]
    ensures forall k: nat :: k in Listed(items) <==> k < |items| && IsListed(items[k])
  {
    if items != [] {
      var n := |items| - 1;
      ListedPositions(items[..n]);
      var before := Listed(items[..n]);
      assert forall i | 0 <= i < |before| :: before[i] in before;
      assert forall k | 0 <= k < n :: items[..n][k] == items[k];
      assert Listed(items) == before + if IsListed(items[n]) then [n] else [];
    }
  }

  /** The scan holds the listed items under their ids and names, in their order. */
  ghost predicate Holds(scan: Scan, items: seq<Value>) {
    && scan.checked == |items| && scan.found == |scan.objects| == |Listed(items)|
    && forall i | 0 <= i < |scan.objects| ::
         Listed(items)[i] < |items| && Lists(items[Listed(items)[i]], scan.objects[i].0, scan.objects[i].1)
  }

  lemma NamedByGet(item: Value, name: Text)
    ensures Named(item, name) <==> item.Dict? && Get(item.members, NAME) == Some(Str(name))
  {
    if item.Dict? {
      GetIsLast(item.members, NAME);
    }
  }

  lemma ListsByGet(item: Value, id: nat, name: Text)
    ensures Lists(item, id, name) <==>
      && item.Dict? && Get(item.members, NAME) == Some(Str(name)) && StagingNames.Match(name) == Some(id)
      && Get(item.members, IS_DIR) != Some(True)
      && (Get(item.members, PATH).None? || Get(item.members, PATH) == Some(Str(name)))
  {
    NamedByGet(item, name);
    StagingNames.MatchIsStagingName(name, id);
    if item.Dict? {
      GetIsLast(item.members, IS_DIR);
      GetIsLast(item.members, PATH);
    }
  }

  /** The name of an entry. */
  function NameOf(item: Value): Option<Text> {
    if !item.Dict? then None
    else
      match Get(item.members, NAME)
      case Some(Str(name)) => Some(name)
      case _ => None
  }

  lemma EntryByName(item: Value)
    ensures IsEntry(item) <==> NameOf(item).Some?
    ensures IsListed(item) <==>
      && NameOf(item).Some? && StagingNames.Match(NameOf(item).value).Some?
      && Lists(item, StagingNames.Match(NameOf(item).value).value, NameOf(item).value)
  {
    if NameOf(item).Some? {
      NamedByGet(item, NameOf(item).value);
    }
    forall name | Named(item, name) ensures NameOf(item) == Some(name) {
      NamedByGet(item, name);
    }
    forall id: nat, name | Lists(item, id, name)
      ensures NameOf(item) == Some(name) && StagingNames.Match(name) == Some(id)
    {
      ListsByGet(item, id, name);
    }
  }

  /** One item: what it adds to the scan, and when it ends it. */
  ghost predicate Counted(scan: Scan, item: Value, r: Outcome) {
    if !IsEntry(item) then r == Refused(scan)
    else if IsListed(item) then
      if |scan.objects| >= 20000 then r == Refused(Scan(scan.checked + 1, scan.found + 1, scan.objects))
      else
        && r.scan.checked == scan.checked + 1 && r.scan.found == scan.found + 1
        && |r.scan.objects| == |scan.objects| + 1 && r.scan.objects[..|scan.objects|] == scan.objects
        && Lists(item, r.scan.objects[|scan.objects|].0, r.scan.objects[|scan.objects|].1)
        && (r.Goes? <==> scan.checked + 1 <= 1_000_000)
    else r.scan == Scan(scan.checked + 1, scan.found, scan.objects) && (r.Goes? <==> scan.checked + 1 <= 1_000_000)
  }

  lemma ItemCounts(scan: Scan, item: Value)
    ensures Counted(scan, item, Count(scan, item))
  {
    EntryByName(item);
    if NameOf(item).Some? && StagingNames.Match(NameOf(item).value).Some? {
      ListsByGet(item, StagingNames.Match(NameOf(item).value).value, NameOf(item).value);
    }
  }

  lemma {:induction false} CountOneMore(scan: Scan, items: seq<Value>, item: Value)
    ensures CountAll(scan, items + [item]) ==
      match CountAll(scan, items) case None => None case Some(s) => Result(Count(s, item))
    decreases |items|
  {
    assert (items + [item])[0] == if items == [] then item else items[0];
    if items == [] {
      assert (items + [item])[1..] == [];
    } else {
      assert (items + [item])[1..] == items[1..] + [item];
      if Count(scan, items[0]).Goes? {
        CountOneMore(Count(scan, items[0]).scan, items[1..], item);
      }
    }
  }

  lemma ListedOneMore(items: seq<Value>, item: Value)
    ensures Listed(items + [item]) == Listed(items) + if IsListed(item) then [|items|] else []
  {
    assert (items + [item])[..|items|] == items;
  }

  lemma HoldsFurther(scan: Scan, items: seq<Value>, item: Value, next: Scan)
    requires Holds(scan, items) && Counted(scan, item, Goes(next)) && IsEntry(item)
    requires IsListed(item) ==> |scan.objects| < 20000
    ensures Holds(next, items + [item])
  {
    var all := items + [item];
    ListedOneMore(items, item);
    forall i | 0 <= i < |next.objects|
      ensures Listed(all)[i] < |all| && Lists(all[Listed(all)[i]], next.objects[i].0, next.objects[i].1)
    {
      if i < |scan.objects| {
        assert next.objects[i] == next.objects[..|scan.objects|][i] == scan.objects[i];
        assert Listed(items)[i] < |items| && all[Listed(items)[i]] == items[Listed(items)[i]];
      }
    }
  }

  /** The items can all be counted and listed. */
  ghost predicate Acceptable(items: seq<Value>) {
    (forall item | item in items :: IsEntry(item)) && |items| <= 1_000_000 && |Listed(items)| <= 20000
  }

  lemma AcceptableOneMore(items: seq<Value>, item: Value)
    ensures Acceptable(items + [item]) <==>
      && Acceptable(items) && IsEntry(item) && |items| < 1_000_000
      && (IsListed(item) ==> |Listed(items)| < 20000)
  {
    var all := items + [item];
    ListedOneMore(items, item);
    assert item in all && forall x | x in items :: x in all;
    assert forall x | x in all :: x in items || x == item;
  }

  /** A listing is accepted exactly if every item is an object with a name, there are at most a million of them, and at
    most twenty thousand are listed; and then the scan counts the items and holds the listed ones. */
  lemma {:induction false} ScanLists(items: seq<Value>)
    ensures CountAll(EMPTY, items).Some? <==> Acceptable(items)
    ensures CountAll(EMPTY, items).Some? ==> Holds(CountAll(EMPTY, items).value, items)
  {
    if items != [] {
      var n := |items| - 1;
      var front, item := items[..n], items[n];
      assert items == front + [item];
      ScanLists(front);
      CountOneMore(EMPTY, front, item);
      AcceptableOneMore(front, item);
      if CountAll(EMPTY, front).Some? {
        var scan := CountAll(EMPTY, front).value;
        ItemCounts(scan, item);
        if Count(scan, item).Goes? {
          HoldsFurther(scan, front, item, Count(scan, item).scan);
        }
      }
    }
  }
}
