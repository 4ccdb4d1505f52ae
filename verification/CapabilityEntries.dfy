/**
 * The entries of the capability registry, folded from the observation ledger: for each
 * entry and layer the last record wins, and a passing live call decides the status.
 */
module CapabilityEntries {
  import opened Wrappers

  datatype Layer = OfficialClaim | LocalPresence | LiveCallable | TaskVerified | UnknownLayer(name: string)

  datatype Observation = Observation(layer: Layer, subjectId: string, capabilityId: string, status: Option<string>)

  datatype Record = Record(observation: Observation, registrySequence: int, leaderEpoch: int)

  datatype Entry = Entry(subjectId: string, capabilityId: string, layers: map<Layer, Record>, effectiveStatus: string)

  type Entries = map<string, Entry>

  function OrUnknown(id: string): string {
    if id == "" then "unknown" else id
  }

  /** The key of an observation's entry. */
  function KeyFor(o: Observation): string {
    OrUnknown(o.subjectId) + "::" + OrUnknown(o.capabilityId)
  }

  /** The entry update of one observation: its layer is replaced, live callability decides the status. */
  function Apply(entries: Entries, r: Record): Entries {
    var o := r.observation;
    var key := KeyFor(o);
    var entry := if key in entries then entries[key]
                 else Entry(OrUnknown(o.subjectId), OrUnknown(o.capabilityId), map[], "unknown");
    var layers := entry.layers[o.layer := r];
    var live := LiveCallable in layers && layers[LiveCallable].observation.status == Some("pass");
    var status := if o.status.Some? then o.status.value else "unknown";
    entries[key := entry.(layers := layers, effectiveStatus := if live then "pass" else status)]
  }

  function ApplyAll(entries: Entries, rs: seq<Record>): Entries
    decreases |rs|
  {
    if rs == [] then entries else Apply(ApplyAll(entries, rs[..|rs| - 1]), rs[|rs| - 1])
  }

  /** The entries an observation ledger stands for: the last writer of each layer wins. */
  function Fold(rs: seq<Record>): Entries {
    ApplyAll(map[], rs)
  }

  /** Every record carries its position in the ledger. */
  predicate Numbered(rs: seq<Record>) {
    forall i :: 0 <= i < |rs| ==> rs[i].registrySequence == i + 1
  }

  // ---------------------------------------------------------------- the last writer of each layer wins

  predicate SameEntry(r: Record, key: string) {
    KeyFor(r.observation) == key
  }

  predicate SameLayer(r: Record, key: string, layer: Layer) {
    SameEntry(r, key) && r.observation.layer == layer
  }

  /** Record `i` is the last one of the ledger for this entry. */
  ghost predicate LastOfEntry(rs: seq<Record>, i: int, key: string) {
    0 <= i < |rs| && SameEntry(rs[i], key) && forall j :: i < j < |rs| ==> !SameEntry(rs[j], key)
  }

  /** Record `i` is the last one of the ledger for this entry and layer. */
  ghost predicate LastOfLayer(rs: seq<Record>, i: int, key: string, layer: Layer) {
    0 <= i < |rs| && SameLayer(rs[i], key, layer) && forall j :: i < j < |rs| ==> !SameLayer(rs[j], key, layer)
  }

  /** The last live call on record for this entry has passed. */
  ghost predicate Callable(rs: seq<Record>, key: string) {
    exists i :: LastOfLayer(rs, i, key, LiveCallable) && rs[i].observation.status == Some("pass")
  }

  /** One record changes its own layer of its own entry and nothing else. */
  lemma ApplyFrame(entries: Entries, r: Record, key: string, layer: Layer)
    ensures var entries' := Apply(entries, r);
      && (key in entries' <==> key in entries || SameEntry(r, key))
      && (key in entries' && !SameEntry(r, key) ==> entries'[key] == entries[key])
      && (SameLayer(r, key, layer) ==> layer in entries'[key].layers && entries'[key].layers[layer] == r)
      && (key in entries' && !SameLayer(r, key, layer) ==>
            && (layer in entries'[key].layers <==> key in entries && layer in entries[key].layers)
            && (layer in entries'[key].layers ==> entries'[key].layers[layer] == entries[key].layers[layer]))
  {
  }

  /** An entry exists exactly if some record is its own. */
  lemma {:induction false} EntryIffRecorded(rs: seq<Record>, key: string)
    ensures key in Fold(rs) <==> exists i :: 0 <= i < |rs| && SameEntry(rs[i], key)
    decreases |rs|
  {
    hide Apply, SameEntry;
    if rs != [] {
      var init := rs[..|rs| - 1];
      EntryIffRecorded(init, key);
      ApplyFrame(Fold(init), rs[|rs| - 1], key, LiveCallable);
      assert forall i :: 0 <= i < |init| ==> init[i] == rs[i];
    }
  }

  /** It has a layer exactly if some record is of that layer. */
  lemma {:induction false} LayerIffRecorded(rs: seq<Record>, key: string, layer: Layer)
    ensures key in Fold(rs) && layer in Fold(rs)[key].layers <==>
      exists i :: 0 <= i < |rs| && SameLayer(rs[i], key, layer)
    decreases |rs|
  {
    hide Apply, SameEntry, SameLayer;
    if rs != [] {
      var init := rs[..|rs| - 1];
      LayerIffRecorded(init, key, layer);
      ApplyFrame(Fold(init), rs[|rs| - 1], key, layer);
      LayerIsEntry(rs[|rs| - 1], key, layer);
      assert forall i :: 0 <= i < |init| ==> init[i] == rs[i];
    }
  }

  /** The last writer wins: over any ledger, an entry shows for each layer the last record of it. */
  lemma {:induction false} LastWriterWins(rs: seq<Record>, i: nat, key: string, layer: Layer)
    requires LastOfLayer(rs, i, key, layer)
    ensures key in Fold(rs) && layer in Fold(rs)[key].layers && Fold(rs)[key].layers[layer] == rs[i]
    decreases |rs|
  {
    hide Apply, SameEntry, SameLayer;
    var init, last := rs[..|rs| - 1], rs[|rs| - 1];
    ApplyFrame(Fold(init), last, key, layer);
    LayerIsEntry(last, key, layer);
    if i < |init| {
      assert forall j :: 0 <= j < |init| ==> init[j] == rs[j];
      LastWriterWins(init, i, key, layer);
    }
  }

  lemma LayerIsEntry(r: Record, key: string, layer: Layer)
    ensures SameLayer(r, key, layer) ==> SameEntry(r, key)
  {
  }

  /** A record that is there has a last one of its kind. */
  lemma {:induction false} LastExists(rs: seq<Record>, k: nat, key: string, layer: Layer) returns (i: nat)
    requires k < |rs| && SameLayer(rs[k], key, layer)
    ensures LastOfLayer(rs, i, key, layer)
    decreases |rs| - k
  {
    hide SameLayer;
    if j :| k < j < |rs| && SameLayer(rs[j], key, layer) {
      i := LastExists(rs, j, key, layer);
    } else {
      i := k;
    }
  }

  lemma LayerCallable(rs: seq<Record>, key: string)
    requires key in Fold(rs)
    ensures Callable(rs, key) <==>
      LiveCallable in Fold(rs)[key].layers && Fold(rs)[key].layers[LiveCallable].observation.status == Some("pass")
  {
    hide Fold, SameLayer, SameEntry;
    LayerIffRecorded(rs, key, LiveCallable);
    if LiveCallable in Fold(rs)[key].layers {
      var k: nat :| k < |rs| && SameLayer(rs[k], key, LiveCallable);
      var i := LastExists(rs, k, key, LiveCallable);
      LastWriterWins(rs, i, key, LiveCallable);
    }
    forall i | LastOfLayer(rs, i, key, LiveCallable)
      ensures LiveCallable in Fold(rs)[key].layers && Fold(rs)[key].layers[LiveCallable] == rs[i]
    {
      LastWriterWins(rs, i, key, LiveCallable);
    }
  }

  /**
   * What an entry reports: it passes if its last live call has passed, and otherwise it has
   * the status of the last record of any layer, unknown if that one carries none.
   */
  lemma EffectiveStatusIs(rs: seq<Record>, i: nat, key: string)
    requires LastOfEntry(rs, i, key)
    ensures key in Fold(rs)
    ensures Fold(rs)[key].effectiveStatus ==
      if Callable(rs, key) then "pass"
      else if rs[i].observation.status.Some? then rs[i].observation.status.value else "unknown"
  {
    hide SameEntry, SameLayer, Callable, Apply;
    EntryIffRecorded(rs, key);
    LayerCallable(rs, key);
    FoldIgnores(rs, i + 1, key);
    assert rs[..i + 1][..i] == rs[..i];
    ApplyStatus(Fold(rs[..i]), rs[i], key);
  }

  lemma ApplyStatus(entries: Entries, r: Record, key: string)
    requires SameEntry(r, key)
    ensures key in Apply(entries, r)
    ensures var entry := Apply(entries, r)[key];
      entry.effectiveStatus ==
      if LiveCallable in entry.layers && entry.layers[LiveCallable].observation.status == Some("pass") then "pass"
      else if r.observation.status.Some? then r.observation.status.value else "unknown"
  {
  }

  /** Records of other entries leave an entry alone. */
  lemma {:induction false} FoldIgnores(rs: seq<Record>, n: nat, key: string)
    requires n <= |rs| && forall j :: n <= j < |rs| ==> !SameEntry(rs[j], key)
    ensures key in Fold(rs) <==> key in Fold(rs[..n])
    ensures key in Fold(rs) ==> Fold(rs)[key] == Fold(rs[..n])[key]
    decreases |rs|
  {
    hide Apply, SameEntry;
    if n == |rs| {
      assert rs[..n] == rs;
    } else {
      var init := rs[..|rs| - 1];
      assert init[..n] == rs[..n];
      FoldIgnores(init, n, key);
      ApplyFrame(Fold(init), rs[|rs| - 1], key, LiveCallable);
    }
  }

  /** The entries show, for every entry and layer of the ledger, its last record. */
  ghost predicate Latest(rs: seq<Record>, entries: Entries) {
    forall i, key, layer :: LastOfLayer(rs, i, key, layer) ==>
      key in entries && layer in entries[key].layers && entries[key].layers[layer] == rs[i]
  }

  lemma FoldIsLatest(rs: seq<Record>)
    ensures Latest(rs, Fold(rs))
  {
    forall i, key, layer | LastOfLayer(rs, i, key, layer)
      ensures key in Fold(rs) && layer in Fold(rs)[key].layers && Fold(rs)[key].layers[layer] == rs[i]
    {
      LastWriterWins(rs, i, key, layer);
    }
  }

  /** The record just appended is shown in its layer of its entry; all other layers and entries stay. */
  lemma AppendShows(rs: seq<Record>, r: Record, key: string, layer: Layer)
    ensures var o := r.observation;
      && KeyFor(o) in Fold(rs + [r]) && o.layer in Fold(rs + [r])[KeyFor(o)].layers
      && Fold(rs + [r])[KeyFor(o)].layers[o.layer] == r
    ensures !SameEntry(r, key) ==>
      (key in Fold(rs + [r]) <==> key in Fold(rs)) && (key in Fold(rs) ==> Fold(rs + [r])[key] == Fold(rs)[key])
    ensures !SameLayer(r, key, layer) && key in Fold(rs) && layer in Fold(rs)[key].layers ==>
      key in Fold(rs + [r]) && layer in Fold(rs + [r])[key].layers
      && Fold(rs + [r])[key].layers[layer] == Fold(rs)[key].layers[layer]
  {
    hide Apply;
    assert (rs + [r])[..|rs|] == rs;
    ApplyFrame(Fold(rs), r, key, layer);
    ApplyFrame(Fold(rs), r, KeyFor(r.observation), r.observation.layer);
  }

  // ---------------------------------------------------------------- whose entry it is

  /** An entry is named after the first record that is its own. */
  lemma {:induction false} FirstNamesEntry(rs: seq<Record>, i: nat, key: string)
    requires i < |rs| && SameEntry(rs[i], key) && forall j :: 0 <= j < i ==> !SameEntry(rs[j], key)
    ensures key in Fold(rs) && Fold(rs)[key].subjectId == OrUnknown(rs[i].observation.subjectId)
    ensures Fold(rs)[key].capabilityId == OrUnknown(rs[i].observation.capabilityId)
    decreases |rs|
  {
    hide SameEntry;
    var init, last := rs[..|rs| - 1], rs[|rs| - 1];
    ApplyNames(Fold(init), last, key);
    EntryIffRecorded(init, key);
    if i < |init| { FirstNamesEntry(init, i, key); }
  }

  lemma ApplyNames(entries: Entries, r: Record, key: string)
    ensures key in entries ==>
      && key in Apply(entries, r) && Apply(entries, r)[key].subjectId == entries[key].subjectId
      && Apply(entries, r)[key].capabilityId == entries[key].capabilityId
    ensures key !in entries && SameEntry(r, key) ==>
      && key in Apply(entries, r) && Apply(entries, r)[key].subjectId == OrUnknown(r.observation.subjectId)
      && Apply(entries, r)[key].capabilityId == OrUnknown(r.observation.capabilityId)
  {
  }

  /** No separator begins inside the subject, so that the first one of the key ends it. */
  predicate Separable(subject: string) {
    forall i :: 1 <= i < |subject| ==> !((subject + "::")[i] == ':' && (subject + "::")[i + 1] == ':')
  }

  /** A key cannot be read with two subjects of different length if the longer one is separable. */
  lemma LongerInseparable(s: string, c: string, s': string, c': string)
    requires s + "::" + c == s' + "::" + c' && 1 <= |s| < |s'|
    ensures !Separable(s')
  {
    var key := s + "::" + c;
    assert key[..|s'| + 2] == s' + "::";
    assert key[|s|] == ':' && key[|s| + 1] == ':';
    assert (s' + "::")[|s|] == key[|s|] && (s' + "::")[|s| + 1] == key[|s| + 1];
  }

  /** Two separable subjects share an entry only if subject and capability are the same. */
  lemma SeparableKeys(a: Observation, b: Observation)
    requires KeyFor(a) == KeyFor(b) && Separable(OrUnknown(a.subjectId)) && Separable(OrUnknown(b.subjectId))
    ensures OrUnknown(a.subjectId) == OrUnknown(b.subjectId)
    ensures OrUnknown(a.capabilityId) == OrUnknown(b.capabilityId)
  {
    hide Separable;
    var s, s', key := OrUnknown(a.subjectId), OrUnknown(b.subjectId), KeyFor(a);
    var c, c' := OrUnknown(a.capabilityId), OrUnknown(b.capabilityId);
    if |s| < |s'| { LongerInseparable(s, c, s', c'); }
    if |s'| < |s| { LongerInseparable(s', c', s, c); }
    assert key[..|s|] == s && key[..|s'|] == s';
    assert key[|s| + 2..] == c && key[|s'| + 2..] == c';
  }

  /** And a subject that is not separable shares its entries with another subject's. */
  lemma InseparableCollides(o: Observation) returns (other: Observation)
    requires !Separable(OrUnknown(o.subjectId))
    ensures KeyFor(other) == KeyFor(o) && OrUnknown(other.subjectId) != OrUnknown(o.subjectId)
  {
    var s, key := OrUnknown(o.subjectId), KeyFor(o);
    var i :| 1 <= i < |s| && (s + "::")[i] == ':' && (s + "::")[i + 1] == ':';
    assert key[..|s| + 2] == s + "::";
    assert key[i] == ':' && key[i + 1] == ':';
    other := o.(subjectId := key[..i], capabilityId := key[i + 2..]);
    assert key == key[..i] + [key[i], key[i + 1]] + key[i + 2..];
    assert [key[i], key[i + 1]] == "::";
  }
}
