/** The daemon's table of SDL game-controller configurations
    (src/bin/daemon/controller/controllerdb.rs): the parser of a mapping
    string, the line-oriented lookup in the game-controller database files,
    and one table from controller index to controller, capped at eight
    entries. */
module ControllerDb {
  import opened Wrappers
  import opened Text

  /** A configured controller: its GUID, its name and its input mappings. */
  datatype Controller = Controller(guid: string, name: string, inputs: map<string, string>)

  // ---------------------------------------------------------------------
  // parse_controller_mapping_data
  // ---------------------------------------------------------------------

  /** The key and the value of one mapping field, cut at its first ':';
      None for a field without ':'. */
  function Field(part: string): (r: Option<(string, string)>)
    ensures r.None? <==> Avoids(part, {':'})
    ensures r.Some? ==> part == r.value.0 + ":" + r.value.1 && Avoids(r.value.0, {':'})
  {
    match FindFirst(part, ":")
    case None =>
      assert Avoids(part, {':'}) by {
        forall j | 0 <= j < |part| ensures part[j] != ':' {
          ColonAt(part, j);
        }
      }
      None
    case Some(pos) =>
      assert Avoids(part[..pos], {':'}) && part[pos] == ':' by {
        ColonAt(part, pos);
        forall j | 0 <= j < pos ensures part[..pos][j] != ':' {
          ColonAt(part, j);
        }
      }
      assert part == part[..pos] + part[pos..pos + 1] + part[pos + 1..];
      Some((part[..pos], part[pos + 1..]))
  }

  /** A one-character match of ':' is the character ':'. */
  lemma ColonAt(s: string, j: int)
    requires 0 <= j < |s|
    ensures MatchAt(s, ":", j) <==> s[j] == ':'
  {
    assert s[j..j + 1] == [s[j]];
  }

  /** A key free of ':' followed by ':' and any value is that key and that
      value. */
  lemma FieldOf(key: string, value: string)
    requires Avoids(key, {':'})
    ensures Field(key + ":" + value) == Some((key, value))
  {
    var part := key + ":" + value;
    assert MatchAt(part, ":", |key|);
    forall j | 0 <= j < |key| ensures !MatchAt(part, ":", j) {
      ColonAt(part, j);
    }
    assert part[..|key|] == key;
    assert part[|key| + 1..] == value;
  }

  /** The input mappings of the fields after the name, inserted one after
      another into a map, so that a later field with the same key replaces
      an earlier one. */
  function Inputs(fields: seq<string>): map<string, string>
    decreases |fields|
  {
    if fields == [] then map[]
    else
      var m := Inputs(fields[..|fields| - 1]);
      match Field(fields[|fields| - 1])
      case None => m
      case Some(kv) => m[kv.0 := kv.1]
  }

  /** The field `part` holds `key`. */
  predicate HasKey(part: string, key: string) {
    Field(part).Some? && Field(part).value.0 == key
  }

  /** A key is mapped exactly when some field carries it. */
  lemma {:induction false} InputsKeys(fields: seq<string>, key: string)
    ensures key in Inputs(fields) <==> exists i :: 0 <= i < |fields| && HasKey(fields[i], key)
    decreases |fields|
  {
    if fields != [] {
      var front := fields[..|fields| - 1];
      InputsKeys(front, key);
      InputsSnoc(fields, key);
      SomeKeySnoc(fields, front, key);
    }
  }

  /** Some field of `fields` carries `key` exactly when one before the last
      does or the last one does. */
  lemma SomeKeySnoc(fields: seq<string>, front: seq<string>, key: string)
    requires fields != [] && front == fields[..|fields| - 1]
    ensures (exists i :: 0 <= i < |fields| && HasKey(fields[i], key)) <==>
      (exists i :: 0 <= i < |front| && HasKey(front[i], key)) || HasKey(fields[|fields| - 1], key)
  {
    var n := |fields| - 1;
    if i :| 0 <= i < |fields| && HasKey(fields[i], key) {
      if i < n {
        assert front[i] == fields[i];
      }
    }
    if i :| 0 <= i < n && HasKey(front[i], key) {
      assert fields[i] == front[i];
    }
  }

  /** The last field adds its key, if it has one, to those of the fields
      before it. */
  lemma InputsSnoc(fields: seq<string>, key: string)
    requires fields != []
    ensures key in Inputs(fields) <==> key in Inputs(fields[..|fields| - 1]) || HasKey(fields[|fields| - 1], key)
  {
    var front := fields[..|fields| - 1];
    var f := Field(fields[|fields| - 1]);
    if f.Some? {
      assert Inputs(fields) == Inputs(front)[f.value.0 := f.value.1];
    } else {
      assert Inputs(fields) == Inputs(front);
    }
  }

  /** A key is mapped to the value of the last field that carries it. */
  lemma {:induction false} InputsLastWins(fields: seq<string>, i: int, key: string)
    requires 0 <= i < |fields| && HasKey(fields[i], key)
    requires forall j :: i < j < |fields| ==> !HasKey(fields[j], key)
    ensures key in Inputs(fields) && Inputs(fields)[key] == Field(fields[i]).value.1
    decreases |fields|
  {
    var n := |fields| - 1;
    var front := fields[..n];
    var f := Field(fields[n]);
    if i < n {
      assert forall j :: i <= j < n ==> front[j] == fields[j];
      InputsLastWins(front, i, key);
      assert !HasKey(fields[n], key);
      if f.Some? {
        assert Inputs(fields) == Inputs(front)[f.value.0 := f.value.1];
      } else {
        assert Inputs(fields) == Inputs(front);
      }
    } else {
      assert Inputs(fields) == Inputs(front)[key := f.value.1];
    }
  }

  /** A field without ':' adds nothing. */
  lemma DroppedField(fields: seq<string>, part: string)
    requires Avoids(part, {':'})
    ensures Inputs(fields + [part]) == Inputs(fields)
  {
    assert (fields + [part])[..|fields|] == fields;
  }

  /** What `parse_controller_mapping_data` returns: the first comma field
      as the name, the input mappings of the other fields. */
  function ParsedMapping(data: string): (string, map<string, string>) {
    var parts := Split(data, {','});
    (parts[0], Inputs(parts[1..]))
  }

  /** Splits the mapping string on ',' and inserts each later field's key
      and value, from left to right. */
  method ParseControllerMappingData(data: string) returns (name: string, inputs: map<string, string>)
    ensures (name, inputs) == ParsedMapping(data)
  {
    var parts := Split(data, {','});
    name := parts[0];
    inputs := map[];
    var rest := parts[1..];
    var i := 0;
    while i < |rest|
      invariant 0 <= i <= |rest|
      invariant inputs == Inputs(rest[..i])
    {
      assert rest[..i + 1][..i] == rest[..i];
      match Field(rest[i]) {
        case None =>
        case Some(kv) =>
          inputs := inputs[kv.0 := kv.1];
      }
      i := i + 1;
    }
    assert rest[..i] == rest;
  }

  /** The mapping field `key:value`. */
  function Entry(kv: (string, string)): string {
    kv.0 + ":" + kv.1
  }

  function Entries(pairs: seq<(string, string)>): (r: seq<string>)
    ensures |r| == |pairs| && forall i :: 0 <= i < |pairs| ==> r[i] == Entry(pairs[i])
  {
    seq(|pairs|, i requires 0 <= i < |pairs| => Entry(pairs[i]))
  }

  /** The pairs inserted one after another into a map. */
  function PairsMap(pairs: seq<(string, string)>): map<string, string>
    decreases |pairs|
  {
    if pairs == [] then map[]
    else
      var kv := pairs[|pairs| - 1];
      PairsMap(pairs[..|pairs| - 1])[kv.0 := kv.1]
  }

  lemma {:induction false} InputsOfEntries(pairs: seq<(string, string)>)
    requires forall i :: 0 <= i < |pairs| ==> Avoids(pairs[i].0, {':'})
    ensures Inputs(Entries(pairs)) == PairsMap(pairs)
    decreases |pairs|
  {
    if pairs != [] {
      var n := |pairs| - 1;
      InputsOfEntries(pairs[..n]);
      assert Entries(pairs)[..n] == Entries(pairs[..n]);
      FieldOf(pairs[n].0, pairs[n].1);
    }
  }

  lemma EntryAvoids(kv: (string, string), c: char)
    requires c != ':' && Avoids(kv.0, {c}) && Avoids(kv.1, {c})
    ensures Avoids(Entry(kv), {c})
  {
    var e := Entry(kv);
    forall j | 0 <= j < |e| ensures e[j] != c {
      if j < |kv.0| {
        assert e[j] == kv.0[j];
      } else if |kv.0| < j {
        assert e[j] == kv.1[j - |kv.0| - 1];
      }
    }
  }

  /** Writing a name and `key:value` fields out with ',' and parsing them
      gives the name and the fields' map back, when the name and the values
      hold no ',' and the keys hold neither ',' nor ':'. */
  lemma MappingRoundTrip(name: string, pairs: seq<(string, string)>)
    requires Avoids(name, {','})
    requires forall i :: 0 <= i < |pairs| ==>
      Avoids(pairs[i].0, {','}) && Avoids(pairs[i].0, {':'}) && Avoids(pairs[i].1, {','})
    ensures ParsedMapping(Join([name] + Entries(pairs), ",")) == (name, PairsMap(pairs))
  {
    var fields := [name] + Entries(pairs);
    FieldsAvoidComma(name, pairs);
    SplitJoin(fields, ',');
    assert fields[1..] == Entries(pairs);
    InputsOfEntries(pairs);
  }

  lemma FieldsAvoidComma(name: string, pairs: seq<(string, string)>)
    requires Avoids(name, {','})
    requires forall i :: 0 <= i < |pairs| ==> Avoids(pairs[i].0, {','}) && Avoids(pairs[i].1, {','})
    ensures forall p | p in [name] + Entries(pairs) :: Avoids(p, {','})
  {
    var entries := Entries(pairs);
    forall k | 0 <= k < |entries| ensures Avoids(entries[k], {','}) {
      EntryAvoids(pairs[k], ',');
    }
    forall p | p in [name] + entries ensures Avoids(p, {','}) {
      if p != name {
        var k :| 0 <= k < |entries| && entries[k] == p;
      }
    }
  }

  // ---------------------------------------------------------------------
  // find_gamecontroller_db
  // ---------------------------------------------------------------------

  /** One database file: missing or failing to open, or the lines it
      yields, followed by a read error when `readFails` holds. */
  datatype DbFile = Unavailable | Readable(lines: seq<string>, readFails: bool)

  /** A line the scan passes over: blank once trimmed, or a comment. */
  predicate Skipped(line: string) {
    Trim(line) == [] || StartsWith(line, "#")
  }

  /** The mapping data a database line gives for `guid`: everything after
      the first ',' when the line is not skipped, has at least three comma
      fields and its first field is `guid`. */
  function LineMapping(line: string, guid: string): (r: Option<string>)
    ensures Skipped(line) ==> r.None?
    ensures r.Some? ==> line == guid + "," + r.value && Avoids(guid, {','}) && !Avoids(r.value, {','})
  {
    if Skipped(line) then None
    else
      var parts := Split(line, {','});
      if |parts| >= 3 && parts[0] == guid then
        var data := Join(parts[1..], ",");
        JoinSplit(line, ',');
        assert parts == [parts[0]] + parts[1..];
        assert Join(parts[1..], ",") == parts[1] + "," + Join(parts[2..], ",");
        assert Avoids(guid, {','}) by { assert parts[0] in parts; }
        assert data[|parts[1]|] == ',';
        Some(data)
      else None
  }

  /** Conversely, a line that is not skipped and holds the GUID, a ',' and
      data with a further ',' gives that data. */
  lemma LineFound(guid: string, data: string)
    requires Avoids(guid, {','}) && !Avoids(data, {','})
    requires !Skipped(guid + "," + data)
    ensures LineMapping(guid + "," + data, guid) == Some(data)
  {
    SplitConcat(guid, ',', data, {','});
    var rest := Split(data, {','});
    assert |rest| >= 2 by {
      var j :| 0 <= j < |data| && data[j] == ',';
      CountInPositive(data, {','}, j);
    }
    JoinSplit(data, ',');
  }

  lemma {:induction false} CountInPositive(s: string, seps: set<char>, j: int)
    requires 0 <= j < |s| && s[j] in seps
    ensures CountIn(s, seps) >= 1
    decreases |s|
  {
    if j > 0 {
      CountInPositive(s[1..], seps, j - 1);
    }
  }

  /** The value `hit` gives for the first of `items` it gives one for. */
  function FirstHit(items: seq<string>, hit: string -> Option<string>): Option<string>
    decreases |items|
  {
    if items == [] then None
    else match hit(items[0])
      case Some(v) => Some(v)
      case None => FirstHit(items[1..], hit)
  }

  /** There is a first hit exactly when some item is a hit, and it is the
      value of the earliest one. */
  lemma {:induction false} FirstHitIsFirst(items: seq<string>, hit: string -> Option<string>)
    ensures FirstHit(items, hit).None? <==> forall j :: 0 <= j < |items| ==> hit(items[j]).None?
    ensures FirstHit(items, hit).Some? ==>
      exists j :: 0 <= j < |items| && FirstHit(items, hit) == hit(items[j])
        && forall k :: 0 <= k < j ==> hit(items[k]).None?
    decreases |items|
  {
    if items != [] && hit(items[0]).None? {
      var rest := items[1..];
      FirstHitIsFirst(rest, hit);
      assert forall j :: 1 <= j < |items| ==> rest[j - 1] == items[j];
      if FirstHit(items, hit).Some? {
        var j :| 0 <= j < |rest| && FirstHit(rest, hit) == hit(rest[j])
          && forall k :: 0 <= k < j ==> hit(rest[k]).None?;
        assert FirstHit(items, hit) == hit(items[j + 1]);
      }
    }
  }

  /** The data of the first line of `lines` that gives some for `guid`. */
  function LookupLines(lines: seq<string>, guid: string): Option<string> {
    FirstHit(lines, line => LineMapping(line, guid))
  }

  /** The lines give data exactly when one of them does, and then it is
      the data of the first such line. */
  lemma LookupLinesFirst(lines: seq<string>, guid: string)
    ensures LookupLines(lines, guid).None? <==>
      forall j :: 0 <= j < |lines| ==> LineMapping(lines[j], guid).None?
    ensures LookupLines(lines, guid).Some? ==>
      exists j :: 0 <= j < |lines| && LookupLines(lines, guid) == LineMapping(lines[j], guid)
        && forall k :: 0 <= k < j ==> LineMapping(lines[k], guid).None?
  {
    FirstHitIsFirst(lines, line => LineMapping(line, guid));
  }

  /** The outcome of the whole scan: the first hit in the first file that
      has one, a read error met before any hit, or Ok(None). Unavailable
      files are passed over. */
  function Lookup(files: seq<DbFile>, guid: string): Result<Option<string>, Unit>
    decreases |files|
  {
    if files == [] then Ok(None)
    else match files[0]
      case Unavailable => Lookup(files[1..], guid)
      case Readable(lines, readFails) =>
        match LookupLines(lines, guid)
        case Some(data) => Ok(Some(data))
        case None => if readFails then Err(Unit) else Lookup(files[1..], guid)
  }

  /** Files are searched in order: the later files are looked at only when
      the earlier ones give Ok(None). */
  lemma {:induction false} LookupAppend(a: seq<DbFile>, b: seq<DbFile>, guid: string)
    ensures Lookup(a + b, guid) == if Lookup(a, guid) == Ok(None) then Lookup(b, guid) else Lookup(a, guid)
    decreases |a|
  {
    if a == [] {
      assert a + b == b;
    } else {
      assert (a + b)[0] == a[0];
      assert (a + b)[1..] == a[1..] + b;
      LookupAppend(a[1..], b, guid);
    }
  }

  /** A file that neither has a mapping for the GUID nor fails while being
      read. */
  predicate Misses(file: DbFile, guid: string) {
    file.Readable? ==> LookupLines(file.lines, guid).None? && !file.readFails
  }

  /** No hit in any readable file and no read error gives Ok(None). */
  lemma {:induction false} LookupMiss(files: seq<DbFile>, guid: string)
    ensures Lookup(files, guid) == Ok(None) <==> forall k :: 0 <= k < |files| ==> Misses(files[k], guid)
    decreases |files|
  {
    if files != [] {
      var rest := files[1..];
      LookupMiss(rest, guid);
      assert Lookup(files, guid) == Ok(None) <==> Misses(files[0], guid) && Lookup(rest, guid) == Ok(None);
      assert files == [files[0]] + rest;
    }
  }

  /** Scans the files in order and each readable file line by line,
      returning at the first hit or the first read error. */
  method FindGamecontrollerDb(files: seq<DbFile>, guid: string) returns (r: Result<Option<string>, Unit>)
    ensures r == Lookup(files, guid)
  {
    var f := 0;
    while f < |files|
      invariant 0 <= f <= |files|
      invariant Lookup(files, guid) == Lookup(files[f..], guid)
    {
      assert files[f..][0] == files[f] && files[f..][1..] == files[f + 1..];
      match files[f] {
        case Unavailable =>
        case Readable(lines, readFails) =>
          var data := SearchLines(lines, guid);
          if data.Some? {
            return Ok(data);
          }
          if readFails {
            return Err(Unit);
          }
      }
      f := f + 1;
    }
    r := Ok(None);
  }

  /** The inner loop over one file's lines: the first line with a mapping
      for the GUID. */
  method SearchLines(lines: seq<string>, guid: string) returns (data: Option<string>)
    ensures data == LookupLines(lines, guid)
  {
    var l := 0;
    while l < |lines|
      invariant 0 <= l <= |lines|
      invariant LookupLines(lines, guid) == LookupLines(lines[l..], guid)
    {
      assert lines[l..][0] == lines[l] && lines[l..][1..] == lines[l + 1..];
      data := LineMapping(lines[l], guid);
      if data.Some? {
        return;
      }
      l := l + 1;
    }
    data := None;
  }

  // ---------------------------------------------------------------------
  // The controller table
  // ---------------------------------------------------------------------

  const MAX_CONTROLLERS: nat := 8
  const MAX_CONTROLLERS_REACHED: string := "Maximum number of controllers (8) reached. Cannot add more."

  /** `order` lists the indices of `table` once each: the iteration order of
      the map, which the model takes as given. */
  predicate IsIndexOrder(order: seq<nat>, table: map<nat, Controller>) {
    (forall i, j :: 0 <= i < j < |order| ==> order[i] != order[j])
    && (forall k :: 0 <= k < |order| ==> order[k] in table)
    && (forall i :: i in table ==> i in order)
  }

  /** The indices, in `order`, of the entries whose GUID is `guid`. */
  function MatchingIndices(order: seq<nat>, table: map<nat, Controller>, guid: string): (r: seq<nat>)
    ensures forall i :: i in r <==> i in order && i in table && table[i].guid == guid
    ensures (forall i, j :: 0 <= i < j < |order| ==> order[i] != order[j]) ==>
      forall i, j :: 0 <= i < j < |r| ==> r[i] != r[j]
    decreases |order|
  {
    if order == [] then []
    else
      var n := |order| - 1;
      var front := MatchingIndices(order[..n], table, guid);
      assert forall i :: i in order <==> i in order[..n] || i == order[n];
      if order[n] in table && table[order[n]].guid == guid then front + [order[n]] else front
  }

  /** The entries at the given indices, in that order. */
  function EntriesAt(indices: seq<nat>, table: map<nat, Controller>): (r: seq<Controller>)
    requires forall k :: 0 <= k < |indices| ==> indices[k] in table
    ensures |r| == |indices| && forall k :: 0 <= k < |indices| ==> r[k] == table[indices[k]]
  {
    seq(|indices|, k requires 0 <= k < |indices| => table[indices[k]])
  }

  /** The entries whose GUID is not `guid`. */
  function Without(table: map<nat, Controller>, guid: string): map<nat, Controller> {
    map i | i in table && table[i].guid != guid :: table[i]
  }

  /** The entries whose index is not among `indices`. */
  function Except(table: map<nat, Controller>, indices: seq<nat>): map<nat, Controller> {
    map i | i in table && i !in indices :: table[i]
  }

  /** One more distinct index removed. */
  lemma ExceptStep(table: map<nat, Controller>, indices: seq<nat>, k: nat)
    requires k < |indices| && forall j :: 0 <= j < |indices| ==> indices[j] in table
    requires forall i, j :: 0 <= i < j < |indices| ==> indices[i] != indices[j]
    ensures indices[k] in Except(table, indices[..k])
    ensures Except(table, indices[..k + 1]) == Except(table, indices[..k]) - {indices[k]}
    ensures EntriesAt(indices[..k + 1], table) == EntriesAt(indices[..k], table) + [table[indices[k]]]
  {
    assert indices[..k + 1] == indices[..k] + [indices[k]];
  }

  /** Removing the matching indices leaves the entries of other GUIDs. */
  lemma ExceptMatches(table: map<nat, Controller>, order: seq<nat>, guid: string)
    requires IsIndexOrder(order, table)
    ensures Except(table, MatchingIndices(order, table, guid)) == Without(table, guid)
  {
  }

  /** The table behind `SDL_CONTROLLER_CONFIG`. */
  class ControllerTable {
    var controllers: map<nat, Controller>

    constructor()
      ensures controllers == map[]
    {
      controllers := map[];
    }

    /** `is_controller_configured`. */
    method IsControllerConfigured(index: nat) returns (b: bool)
      ensures b <==> index in controllers
    {
      b := index in controllers;
    }

    /** `get_sdl_controller_config`: a copy of the table. */
    method GetSdlControllerConfig() returns (m: map<nat, Controller>)
      ensures m == controllers
    {
      m := controllers;
    }

    /** `add_sdl_controller_config`: an index already present, a GUID the
        database does not give and a failed scan all give Ok(None); a full
        table refuses; otherwise the parsed controller is stored at
        `index`. */
    method AddSdlControllerConfig(index: nat, guid: string, db: seq<DbFile>)
      returns (r: Result<Option<Controller>, string>)
      modifies this
      ensures index in old(controllers) ==> r == Ok(None) && controllers == old(controllers)
      ensures index !in old(controllers) && !(Lookup(db, guid).Ok? && Lookup(db, guid).value.Some?) ==>
        r == Ok(None) && controllers == old(controllers)
      ensures index !in old(controllers) && Lookup(db, guid).Ok? && Lookup(db, guid).value.Some? ==>
        var parsed := ParsedMapping(Lookup(db, guid).value.value);
        var c := Controller(guid, parsed.0, parsed.1);
        if |old(controllers)| >= MAX_CONTROLLERS then
          r == Err(MAX_CONTROLLERS_REACHED) && controllers == old(controllers)
        else
          r == Ok(Some(c)) && controllers == old(controllers)[index := c]
      ensures |old(controllers)| <= MAX_CONTROLLERS ==> |controllers| <= MAX_CONTROLLERS
    {
      var configured := IsControllerConfigured(index);
      if configured {
        return Ok(None);
      }
      var found := FindGamecontrollerDb(db, guid);
      if found.Ok? && found.value.Some? {
        if |controllers| >= MAX_CONTROLLERS {
          return Err(MAX_CONTROLLERS_REACHED);
        }
        var name, inputs := ParseControllerMappingData(found.value.value);
        var controller := Controller(guid, name, inputs);
        assert (controllers[index := controller]).Keys == controllers.Keys + {index};
        controllers := controllers[index := controller];
        r := Ok(Some(controller));
      } else {
        r := Ok(None);
      }
    }

    /** `remove_sdl_controller_config`: with a GUID, every entry carrying it
        is removed and returned in the map's iteration order; without one,
        every entry is returned and the table is emptied. */
    method RemoveSdlControllerConfig(guid: Option<string>, order: seq<nat>) returns (removed: seq<Controller>)
      requires IsIndexOrder(order, controllers)
      modifies this
      ensures guid.Some? ==>
        controllers == Without(old(controllers), guid.value)
        && removed == EntriesAt(MatchingIndices(order, old(controllers), guid.value), old(controllers))
      ensures guid.None? ==> controllers == map[] && removed == EntriesAt(order, old(controllers))
    {
      match guid {
        case None =>
          removed := EntriesAt(order, controllers);
          controllers := map[];
        case Some(g) =>
          var indices := MatchingIndices(order, controllers, g);
          ghost var before := controllers;
          removed := [];
          var k := 0;
          while k < |indices|
            invariant 0 <= k <= |indices|
            invariant controllers == Except(before, indices[..k])
            invariant removed == EntriesAt(indices[..k], before)
          {
            var index := indices[k];
            ExceptStep(before, indices, k);
            if index in controllers {
              removed := removed + [controllers[index]];
              controllers := controllers - {index};
            }
            k := k + 1;
          }
          assert indices[..k] == indices;
          ExceptMatches(before, order, g);
      }
    }
  }

  /** Removing by GUID returns exactly the entries that carried it. */
  lemma RemovedAreTheMatches(order: seq<nat>, table: map<nat, Controller>, guid: string)
    requires IsIndexOrder(order, table)
    ensures forall c :: c in EntriesAt(MatchingIndices(order, table, guid), table) <==>
      exists i :: i in table && table[i] == c && c.guid == guid
  {
    var indices := MatchingIndices(order, table, guid);
    var removed := EntriesAt(indices, table);
    forall c | c in removed ensures exists i :: i in table && table[i] == c && c.guid == guid {
      var k :| 0 <= k < |removed| && removed[k] == c;
      assert indices[k] in indices;
    }
    forall c | exists i :: i in table && table[i] == c && c.guid == guid ensures c in removed {
      var i :| i in table && table[i] == c && c.guid == guid;
      assert i in indices;
      var k :| 0 <= k < |indices| && indices[k] == i;
      assert removed[k] == c;
    }
  }
}
