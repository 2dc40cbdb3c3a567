/**
 * Workspace documents: saving a workspace, loading it back through migration and normalization,
 * and importing it as an independent workspace with fresh ids.
 *
 * JSON text is abstract: `write` and `read` stand for the printer and the parser, and a round trip
 * assumes only that `read` recovers what `write` wrote.
 */
module WorkspaceDoc {
  import opened Chunks
  import opened Layout

  const SCHEMA_VERSION: real := 9.0

  datatype RawHome = NoHome | NotAnAgent | AgentHome(agentId: Option<string>, agentName: Option<string>)

  /**
   * A workspace as found in a file. None stands for a missing or mistyped field; `minimized` is
   * None unless it is a list, and its entries are None where they are not text.
   */
  datatype Raw = Raw(id: Option<string>, name: string, layout: Option<Node>, panes: Option<map<string, Pane>>,
                     minimized: Option<seq<Option<string>>>, maximized: Option<string>,
                     theme: Option<string>, runCommands: Option<string>, home: RawHome)

  datatype Envelope = Envelope(version: Option<real>, workspace: Option<Raw>)

  datatype Fault = NotJson | MissingParts | NewerSchema | BadShape
  datatype Loaded = Good(ws: Workspace) | Bad(fault: Fault)

  // ---------------------------------------------------------------- saving and loading

  function Entries(ids: seq<string>): seq<Option<string>> {
    seq(|ids|, i requires 0 <= i < |ids| => Some(ids[i]))
  }

  /** What saving writes; empty view state is written as absent fields. */
  function Record(ws: Workspace): Raw {
    var minimized := if ws.minimized == [] then None else Some(Entries(ws.minimized));
    var home := if ws.home.None? then NoHome
                else AgentHome(Some(ws.home.value.agentId), Some(ws.home.value.agentName));
    Raw(Some(ws.id), ws.name, ws.layout, Some(ws.panes), minimized, ws.maximized, ws.theme, ws.runCommands, home)
  }

  function Enveloped(ws: Workspace): Envelope {
    Envelope(Some(SCHEMA_VERSION), Some(Record(ws)))
  }

  function Serialize(write: Envelope -> string, ws: Workspace): string {
    write(Enveloped(ws))
  }

  /** Records from before view state was persisted load with none. */
  function Migrate(raw: Raw, version: real): Raw {
    if version < 7.0 then raw.(minimized := None, maximized := None) else raw
  }

  function NormalizeConfig(c: Config): Config {
    if c.kind == "orky" && c.root.None? then c.(root := Some("")) else c
  }

  function NormalizePanes(panes: map<string, Pane>): map<string, Pane> {
    map p | p in panes :: panes[p].(config := NormalizeConfig(panes[p].config))
  }

  function Text(t: Option<string>): string {
    if t.None? then "" else t.value
  }

  function NormalizeHome(home: RawHome): Option<Home> {
    match home
    case NoHome => None
    case NotAnAgent => None
    case AgentHome(agentId, agentName) => Some(Home(Text(agentId), Text(agentName)))
  }

  /** The entries that name an existing pane, in order. */
  function KeepKnown(entries: seq<Option<string>>, known: set<string>): seq<string> {
    if entries == [] then []
    else
      var last := entries[|entries| - 1];
      KeepKnown(entries[..|entries| - 1], known) + if last.Some? && last.value in known then [last.value] else []
  }

  /** Coerce malformed bindings and drop view state that dangles; minimized wins over maximized. */
  function Normalize(raw: Raw): Workspace
    requires raw.id.Some? && raw.panes.Some?
  {
    var panes := NormalizePanes(raw.panes.value);
    var minimized := if raw.minimized.None? then [] else KeepKnown(raw.minimized.value, panes.Keys);
    var kept := raw.maximized.Some? && raw.maximized.value in panes && raw.maximized.value !in minimized;
    Workspace(raw.id.value, raw.name, raw.layout, panes, minimized, if kept then raw.maximized else None,
              raw.theme, raw.runCommands, NormalizeHome(raw.home))
  }

  function Deserialize(read: string -> Option<Envelope>, json: string): Loaded {
    var parsed := read(json);
    if parsed.None? then Bad(NotJson)
    else
      var envelope := parsed.value;
      if envelope.version.None? || envelope.workspace.None? then Bad(MissingParts)
      else if envelope.version.value > SCHEMA_VERSION then Bad(NewerSchema)
      else
        var raw := Migrate(envelope.workspace.value, envelope.version.value);
        if raw.id.None? || raw.panes.None? then Bad(BadShape) else Good(Normalize(raw))
  }

  // ---------------------------------------------------------------- normalization

  predicate BindingsOk(ws: Workspace) {
    forall p :: p in ws.panes && ws.panes[p].config.kind == "orky" ==> ws.panes[p].config.root.Some?
  }

  lemma {:induction false} KnownEntries(entries: seq<Option<string>>, known: set<string>)
    ensures forall x :: x in KeepKnown(entries, known) <==> Some(x) in entries && x in known
    decreases |entries|
  {
    if entries != [] {
      assert forall e :: e in entries <==> e in entries[..|entries| - 1] || e == entries[|entries| - 1];
      KnownEntries(entries[..|entries| - 1], known);
    }
  }

  lemma {:induction false} KeepingEverything(ids: seq<string>, known: set<string>)
    ensures |KeepKnown(Entries(ids), known)| <= |ids|
    ensures KeepKnown(Entries(ids), known) == ids <==> forall x :: x in ids ==> x in known
    decreases |ids|
  {
    KnownEntries(Entries(ids), known);
    if ids != [] {
      var front, last := ids[..|ids| - 1], ids[|ids| - 1];
      assert Entries(ids)[..|ids| - 1] == Entries(front) && ids == front + [last];
      KeepingEverything(front, known);
      if forall x :: x in ids ==> x in known {
        assert last in ids && forall x :: x in front ==> x in ids;
      } else {
        var x :| x in ids && x !in known;
      }
    }
  }

  /**
   * Whatever the file said, the loaded view state refers to existing panes and no pane is both minimized
   * and maximized.
   */
  lemma NormalizedIsSound(raw: Raw)
    requires raw.id.Some? && raw.panes.Some?
    ensures ViewOk(Normalize(raw)) && BindingsOk(Normalize(raw))
    ensures Normalize(raw).panes.Keys == raw.panes.value.Keys
    ensures raw.home.AgentHome? <==> Normalize(raw).home.Some?
    ensures raw.home.AgentHome? ==>
      && (Normalize(raw).home.value.agentId == match raw.home.agentId case Some(id) => id case None => "")
      && (Normalize(raw).home.value.agentName == match raw.home.agentName case Some(name) => name case None => "")
    ensures forall p :: p in raw.panes.value ==>
      var before, after := raw.panes.value[p], Normalize(raw).panes[p];
      after == if before.config.kind == "orky" && before.config.root.None? then
                 before.(config := before.config.(root := Some(""))) else before
  {
    var panes := NormalizePanes(raw.panes.value);
    if raw.minimized.Some? { KnownEntries(raw.minimized.value, panes.Keys); }
    assert Normalize(raw).panes == panes;
  }

  /** Loading gives back exactly what was saved if and only if its view state and bindings were sound. */
  lemma NormalizeKeepsIff(ws: Workspace)
    ensures Normalize(Record(ws)) == ws <==> ViewOk(ws) && BindingsOk(ws)
  {
    var back := Normalize(Record(ws));
    KeepingEverything(ws.minimized, ws.panes.Keys);
    NormalizedIsSound(Record(ws));
    if BindingsOk(ws) { assert back.panes == ws.panes; }
  }

  /** Normalizing a normalized workspace changes nothing. */
  lemma NormalizeIsIdempotent(raw: Raw)
    requires raw.id.Some? && raw.panes.Some?
    ensures Normalize(Record(Normalize(raw))) == Normalize(raw)
  {
    NormalizedIsSound(raw);
    NormalizeKeepsIff(Normalize(raw));
  }

  /** Saving and loading. */
  lemma SaveThenLoadIff(write: Envelope -> string, read: string -> Option<Envelope>, ws: Workspace)
    requires read(write(Enveloped(ws))) == Some(Enveloped(ws))
    ensures Deserialize(read, Serialize(write, ws)) == Good(ws) <==> ViewOk(ws) && BindingsOk(ws)
  {
    NormalizeKeepsIff(ws);
  }

  /**
   * A file loads exactly when it parses, has both parts, is not from a newer build, and names the
   * workspace and its panes.
   */
  lemma LoadsIff(read: string -> Option<Envelope>, json: string)
    ensures Deserialize(read, json).Good? <==>
      && read(json).Some? && read(json).value.version.Some? && read(json).value.version.value <= SCHEMA_VERSION
      && read(json).value.workspace.Some? && read(json).value.workspace.value.id.Some?
      && read(json).value.workspace.value.panes.Some?
    ensures Deserialize(read, json).Good? ==>
      ViewOk(Deserialize(read, json).ws) && BindingsOk(Deserialize(read, json).ws)
  {
    if Deserialize(read, json).Good? {
      NormalizedIsSound(Migrate(read(json).value.workspace.value, read(json).value.version.value));
    }
  }

  /** A file that does not load is refused for the first thing that is wrong with it, in this order. */
  lemma RefusedFor(read: string -> Option<Envelope>, json: string)
    ensures var loaded := Deserialize(read, json);
      && (loaded == Bad(NotJson) <==> read(json).None?)
      && (loaded == Bad(MissingParts) <==>
            read(json).Some? && (read(json).value.version.None? || read(json).value.workspace.None?))
      && (loaded == Bad(NewerSchema) <==>
            read(json).Some? && read(json).value.version.Some? && read(json).value.workspace.Some?
            && read(json).value.version.value > SCHEMA_VERSION)
      && (loaded == Bad(BadShape) <==>
            read(json).Some? && read(json).value.version.Some? && read(json).value.workspace.Some?
            && read(json).value.version.value <= SCHEMA_VERSION
            && (read(json).value.workspace.value.id.None? || read(json).value.workspace.value.panes.None?))
  {
  }

  lemma EntriesTell(ids: seq<string>)
    ensures forall p :: Some(p) in Entries(ids) <==> p in ids
  {
    forall p | p in ids ensures Some(p) in Entries(ids) {
      var i :| 0 <= i < |ids| && ids[i] == p;
      assert Entries(ids)[i] == Some(p);
    }
  }

  /**
   * Saving never produces a file that is refused. Tree, panes and name come back as they were, a
   * sound layout stays sound, and view state loses at most what referred to no pane.
   */
  lemma SavedFilesLoad(write: Envelope -> string, read: string -> Option<Envelope>, ws: Workspace)
    requires read(write(Enveloped(ws))) == Some(Enveloped(ws))
    ensures var loaded := Deserialize(read, Serialize(write, ws));
      && loaded.Good? && loaded.ws.layout == ws.layout && loaded.ws.panes.Keys == ws.panes.Keys
      && loaded.ws.name == ws.name && loaded.ws.home == ws.home
      && (forall p :: p in loaded.ws.minimized <==> p in ws.minimized && p in ws.panes)
      && (LayoutOk(ws) ==> LayoutOk(loaded.ws))
  {
    SavedTray(ws);
    NormalizedIsSound(Record(ws));
    if LayoutOk(ws) { SavedLayoutIsSound(ws); }
  }

  /** What a save and a load leave of the tray. */
  lemma SavedTray(ws: Workspace)
    ensures forall p :: p in Normalize(Record(ws)).minimized <==> p in ws.minimized && p in ws.panes
  {
    KnownEntries(Entries(ws.minimized), ws.panes.Keys);
    EntriesTell(ws.minimized);
    assert NormalizePanes(ws.panes).Keys == ws.panes.Keys;
  }

  lemma SavedLayoutIsSound(ws: Workspace)
    requires LayoutOk(ws)
    ensures LayoutOk(Normalize(Record(ws)))
  {
    NormalizedIsSound(Record(ws));
    KeepingEverything(ws.minimized, ws.panes.Keys);
    assert Normalize(Record(ws)).minimized == ws.minimized;
  }

  /** Whatever file was loaded, saving the result and loading it again changes nothing any more. */
  lemma ResavedFilesAreStable(write: Envelope -> string, read: string -> Option<Envelope>, json: string)
    requires Deserialize(read, json).Good?
    requires var ws := Deserialize(read, json).ws; read(write(Enveloped(ws))) == Some(Enveloped(ws))
    ensures Deserialize(read, Serialize(write, Deserialize(read, json).ws)) == Deserialize(read, json)
  {
    LoadsIff(read, json);
    SaveThenLoadIff(write, read, Deserialize(read, json).ws);
  }

  /** A record from before view state existed loads with every pane in its tile and none maximized. */
  lemma OldRecordsLoadPlain(read: string -> Option<Envelope>, json: string)
    requires Deserialize(read, json).Good? && read(json).value.version.value < 7.0
    ensures VisibleLayout(Deserialize(read, json).ws) == read(json).value.workspace.value.layout
    ensures Deserialize(read, json).ws.maximized.None?
  {
    var ws := Deserialize(read, json).ws;
    assert ws.minimized == [];
    VisibleIsRestriction(ws);
    if ws.layout.Some? { RestrictNothing(ws.layout.value, SetOf(ws.minimized)); }
  }

  /** The tray of a record: its entries that name one of its panes. */
  function TrayOf(raw: Raw): seq<string>
    requires raw.panes.Some?
  {
    if raw.minimized.None? then [] else KeepKnown(raw.minimized.value, raw.panes.value.Keys)
  }

  /**
   * A record from version 7 on loads with its tray in the order of the file, less what names no pane,
   * and with its maximized pane if that exists and is not in the tray.
   */
  lemma NewRecordsKeepTheirView(read: string -> Option<Envelope>, json: string)
    requires Deserialize(read, json).Good? && read(json).value.version.value >= 7.0
    ensures var raw, ws := read(json).value.workspace.value, Deserialize(read, json).ws;
      && ws.layout == raw.layout && ws.minimized == TrayOf(raw)
      && (forall p :: ws.maximized == Some(p) <==>
            raw.maximized == Some(p) && p in raw.panes.value && p !in ws.minimized)
  {
    assert NormalizePanes(read(json).value.workspace.value.panes.value).Keys ==
      read(json).value.workspace.value.panes.value.Keys;
  }

  // ---------------------------------------------------------------- fresh ids

  /** The i-th pane id, in the record's own order, gets the i-th fresh id. */
  function IdMap(order: seq<string>, ids: seq<string>): map<string, string>
    requires |order| <= |ids|
  {
    if order == [] then map[]
    else var n := |order| - 1; IdMap(order[..n], ids)[order[n] := ids[n]]
  }

  function Renamed(m: map<string, string>, id: string): string {
    if id in m then m[id] else id
  }

  function RenameNode(n: Node, m: map<string, string>): Node {
    match n
    case Leaf(id) => Leaf(Renamed(m, id))
    case Split(_, first, second, _) => n.(first := RenameNode(first, m), second := RenameNode(second, m))
  }

  function RenameTree(t: Option<Node>, m: map<string, string>): Option<Node> {
    if t.None? then None else Some(RenameNode(t.value, m))
  }

  function RenamePanes(order: seq<string>, panes: map<string, Pane>, m: map<string, string>): map<string, Pane>
    requires forall p :: p in order ==> p in panes && p in m
    decreases |order|
  {
    if order == [] then map[]
    else
      var n := |order| - 1;
      RenamePanes(order[..n], panes, m)[m[order[n]] := Pane(m[order[n]], panes[order[n]].config)]
  }

  function RenameList(ids: seq<string>, m: map<string, string>): seq<string> {
    seq(|ids|, i requires 0 <= i < |ids| => Renamed(m, ids[i]))
  }

  /** Only ids the map knows survive. */
  function RenameKnown(ids: seq<string>, m: map<string, string>): seq<string> {
    if ids == [] then []
    else
      var last := ids[|ids| - 1];
      RenameKnown(ids[..|ids| - 1], m) + if last in m then [m[last]] else []
  }

  /**
   * `order` lists the panes in the record's own order; `ids` are the fresh ids, in the order in which
   * they are drawn.
   */
  ghost predicate Rekeying(ws: Workspace, order: seq<string>, ids: seq<string>) {
    && Distinct(order) && Distinct(ids) && |order| == |ids|
    && (forall p :: p in order <==> p in ws.panes)
  }

  lemma {:induction false} IdMapPairs(order: seq<string>, ids: seq<string>)
    requires Distinct(order) && |order| <= |ids|
    ensures IdMap(order, ids).Keys == SetOf(order)
    ensures forall i :: 0 <= i < |order| ==> order[i] in IdMap(order, ids) && IdMap(order, ids)[order[i]] == ids[i]
    decreases |order|
  {
    if order != [] {
      var n := |order| - 1;
      IdMapPairs(order[..n], ids);
      assert SetOf(order) == SetOf(order[..n]) + {order[n]};
      assert forall i :: 0 <= i < n ==> order[..n][i] == order[i];
    }
  }

  predicate Injective(m: map<string, string>) {
    forall a, b :: a in m && b in m && m[a] == m[b] ==> a == b
  }

  /** The re-keying is one bijection between the old pane ids and the fresh ones. */
  lemma IdMapIsBijection(ws: Workspace, order: seq<string>, ids: seq<string>)
    requires Rekeying(ws, order, ids)
    ensures var m := IdMap(order, ids); m.Keys == ws.panes.Keys && Injective(m) && m.Values == SetOf(ids)
  {
    var m := IdMap(order, ids);
    IdMapPairs(order, ids);
    assert m.Keys == ws.panes.Keys;
    forall a, b | a in m && b in m && m[a] == m[b] ensures a == b {
      var i :| 0 <= i < |order| && order[i] == a;
      var j :| 0 <= j < |order| && order[j] == b;
    }
    forall x | x in SetOf(ids) ensures x in m.Values {
      var i :| 0 <= i < |ids| && ids[i] == x;
      assert m[order[i]] == x;
    }
    forall x | x in m.Values ensures x in SetOf(ids) {
      var a :| a in m && m[a] == x;
      var i :| 0 <= i < |order| && order[i] == a;
    }
  }

  lemma {:induction false} RenamedPanes(order: seq<string>, panes: map<string, Pane>, m: map<string, string>)
    requires Injective(m) && forall p :: p in order ==> p in panes && p in m
    ensures forall p :: p in order ==>
      m[p] in RenamePanes(order, panes, m) && RenamePanes(order, panes, m)[m[p]] == Pane(m[p], panes[p].config)
    ensures forall q :: q in RenamePanes(order, panes, m) ==> exists p :: p in order && m[p] == q
    decreases |order|
  {
    if order != [] {
      var n := |order| - 1;
      assert forall p :: p in order <==> p in order[..n] || p == order[n];
      RenamedPanes(order[..n], panes, m);
      var before := RenamePanes(order[..n], panes, m);
      forall q | q in RenamePanes(order, panes, m) ensures exists p :: p in order && m[p] == q {
        if q == m[order[n]] {
          assert order[n] in order;
        } else {
          assert q in before;
          var p :| p in order[..n] && m[p] == q;
          assert p in order;
        }
      }
    }
  }

  lemma {:induction false} KnownIsWholeList(ids: seq<string>, m: map<string, string>)
    requires forall x :: x in ids ==> x in m
    ensures RenameKnown(ids, m) == RenameList(ids, m)
    decreases |ids|
  {
    if ids != [] {
      var n := |ids| - 1;
      assert forall x :: x in ids[..n] ==> x in ids;
      KnownIsWholeList(ids[..n], m);
      assert RenameList(ids, m) == RenameList(ids[..n], m) + [m[ids[n]]];
    }
  }

  // ---------------------------------------------------------------- importing

  /** An empty id counts as no id. */
  function Truthy(id: Option<string>): bool {
    id.Some? && id.value != ""
  }

  function Lookup(m: map<string, string>, id: string): Option<string> {
    if id in m then Some(m[id]) else None
  }

  function ImportWorkspace(src: Workspace, newId: string, order: seq<string>, ids: seq<string>): Workspace
    requires Rekeying(src, order, ids)
  {
    var m := IdMap(order, ids);
    assert m.Keys == SetOf(order) by { IdMapPairs(order, ids); }
    var maximized := if Truthy(src.maximized) then Lookup(m, src.maximized.value) else None;
    Workspace(newId, src.name, RenameTree(src.layout, m), RenamePanes(order, src.panes, m),
              RenameKnown(src.minimized, m), if Truthy(maximized) then maximized else None,
              src.theme, src.runCommands, src.home)
  }

  /** `b` is `a` under another id and with every pane renamed by `m`, and nothing else changed. */
  ghost predicate Isomorphic(a: Workspace, b: Workspace, m: map<string, string>) {
    && Injective(m) && m.Keys == a.panes.Keys && m.Values == b.panes.Keys
    && b.layout == RenameTree(a.layout, m)
    && (forall p :: p in a.panes ==> b.panes[m[p]] == Pane(m[p], a.panes[p].config))
    && b.minimized == RenameList(a.minimized, m)
    && b.maximized == (if a.maximized.None? then None else Some(Renamed(m, a.maximized.value)))
    && b.name == a.name && b.theme == a.theme && b.runCommands == a.runCommands && b.home == a.home
  }

  lemma ImportedPanes(src: Workspace, newId: string, order: seq<string>, ids: seq<string>)
    requires Rekeying(src, order, ids)
    ensures var out, m := ImportWorkspace(src, newId, order, ids), IdMap(order, ids);
      && out.panes.Keys == m.Values && m.Keys == src.panes.Keys
      && forall p :: p in src.panes ==> m[p] in out.panes && out.panes[m[p]] == Pane(m[p], src.panes[p].config)
  {
    var out, m := ImportWorkspace(src, newId, order, ids), IdMap(order, ids);
    IdMapIsBijection(src, order, ids);
    RenamedPanes(order, src.panes, m);
    forall q | q in m.Values ensures q in out.panes.Keys { var p :| p in m && m[p] == q; assert p in order; }
    forall q | q in out.panes.Keys ensures q in m.Values { var p :| p in order && m[p] == q; assert m[p] in m.Values; }
  }

  /**
   * An import is the source renamed by one bijection covering tree, panes and view state, except
   * that a maximized pane is forgotten when its old or new id is the empty text.
   */
  lemma ImportIsRenamingIff(src: Workspace, newId: string, order: seq<string>, ids: seq<string>)
    requires ViewOk(src) && Rekeying(src, order, ids)
    ensures var m := IdMap(order, ids);
      Isomorphic(src, ImportWorkspace(src, newId, order, ids), m) <==>
        (src.maximized.Some? ==> src.maximized.value != "" && Renamed(m, src.maximized.value) != "")
  {
    IdMapIsBijection(src, order, ids);
    ImportedPanes(src, newId, order, ids);
    KnownIsWholeList(src.minimized, IdMap(order, ids));
  }

  /** For instance: a sound workspace whose one pane has the empty text for an id comes back unmaximized. */
  lemma EmptyIdLosesMaximized(config: Config)
    ensures var src :=
      Workspace("w", "w", Some(Leaf("")), map["" := Pane("", config)], [], Some(""), None, None, None);
      && LayoutOk(src) && Rekeying(src, [""], ["x"])
      && var out := ImportWorkspace(src, "v", [""], ["x"]);
      && out.maximized == None && !Isomorphic(src, out, IdMap([""], ["x"]))
  {
    var src := Workspace("w", "w", Some(Leaf("")), map["" := Pane("", config)], [], Some(""), None, None, None);
    assert Leaves(Leaf("")) == [""] && "" in [""];
    ImportIsRenamingIff(src, "v", [""], ["x"]);
  }

  /** The imported panes are exactly the fresh ids: imports drawing different ids never share a pane. */
  lemma ImportOwnsItsPanes(src: Workspace, newId: string, order: seq<string>, ids: seq<string>)
    requires Rekeying(src, order, ids)
    ensures ImportWorkspace(src, newId, order, ids).panes.Keys == SetOf(ids)
    ensures ImportWorkspace(src, newId, order, ids).id == newId
  {
    IdMapIsBijection(src, order, ids);
    ImportedPanes(src, newId, order, ids);
  }

  // ---------------------------------------------------------------- what renaming preserves

  /** Renaming keeps the named ids apart from the ids it does not touch. */
  ghost predicate Separates(m: map<string, string>, ids: seq<string>) {
    Injective(m) && forall x :: x in ids && x !in m ==> x !in m.Values
  }

  lemma RenamedApart(m: map<string, string>, ids: seq<string>, a: string, b: string)
    requires Separates(m, ids) && a in ids && b in ids
    ensures Renamed(m, a) == Renamed(m, b) <==> a == b
  {
    assert a in m ==> m[a] in m.Values;
    assert b in m ==> m[b] in m.Values;
  }

  lemma RenameListDistinctIff(m: map<string, string>, ids: seq<string>)
    requires Separates(m, ids)
    ensures Distinct(RenameList(ids, m)) <==> Distinct(ids)
  {
    var r := RenameList(ids, m);
    forall i, j | 0 <= i < j < |ids| ensures r[i] == r[j] <==> ids[i] == ids[j] {
      RenamedApart(m, ids, ids[i], ids[j]);
    }
  }

  lemma RenameListMembers(m: map<string, string>, ids: seq<string>, x: string)
    requires Separates(m, ids + [x])
    ensures Renamed(m, x) in RenameList(ids, m) <==> x in ids
  {
    var r := RenameList(ids, m);
    forall i | 0 <= i < |ids| ensures r[i] == Renamed(m, x) <==> ids[i] == x { RenamedApart(m, ids + [x], ids[i], x); }
  }

  lemma {:induction false} RenameLeaves(n: Node, m: map<string, string>)
    ensures Leaves(RenameNode(n, m)) == RenameList(Leaves(n), m)
    decreases n
  {
    match n
    case Leaf(id) =>
    case Split(_, first, second, _) =>
      RenameLeaves(first, m);
      RenameLeaves(second, m);
      assert RenameList(Leaves(first) + Leaves(second), m) ==
        RenameList(Leaves(first), m) + RenameList(Leaves(second), m);
  }

  /** Hiding and renaming commute. */
  lemma {:induction false} RenameRestricted(n: Node, m: map<string, string>, hidden: set<string>, hidden': set<string>)
    requires forall x :: x in Leaves(n) ==> (Renamed(m, x) in hidden' <==> x in hidden)
    ensures Restrict(RenameNode(n, m), hidden') == RenameTree(Restrict(n, hidden), m)
    decreases n
  {
    match n
    case Leaf(id) =>
    case Split(_, first, second, _) =>
      RenameRestricted(first, m, hidden, hidden');
      RenameRestricted(second, m, hidden, hidden');
  }

  /** An imported workspace shows the same picture: its visible tree is the renamed visible tree. */
  lemma ImportKeepsThePicture(src: Workspace, newId: string, order: seq<string>, ids: seq<string>)
    requires ViewOk(src) && Rekeying(src, order, ids)
    requires Separates(IdMap(order, ids), LeavesOf(src.layout))
    ensures VisibleLayout(ImportWorkspace(src, newId, order, ids)) == RenameTree(VisibleLayout(src), IdMap(order, ids))
  {
    var out, m := ImportWorkspace(src, newId, order, ids), IdMap(order, ids);
    VisibleIsRestriction(src);
    VisibleIsRestriction(out);
    IdMapIsBijection(src, order, ids);
    KnownIsWholeList(src.minimized, m);
    if src.layout.Some? {
      forall x | x in Leaves(src.layout.value)
        ensures Renamed(m, x) in SetOf(out.minimized) <==> x in SetOf(src.minimized)
      {
        RenameListMembers(m, src.minimized, x);
      }
      RenameRestricted(src.layout.value, m, SetOf(src.minimized), SetOf(out.minimized));
    }
  }

  /** A loaded file with any tree: the import is sound exactly when the tree and the tray in the file were. */
  lemma ImportIsSoundIff(src: Workspace, newId: string, order: seq<string>, ids: seq<string>)
    requires ViewOk(src) && Rekeying(src, order, ids)
    requires Separates(IdMap(order, ids), LeavesOf(src.layout))
    ensures LayoutOk(ImportWorkspace(src, newId, order, ids)) <==> TreeOk(src) && Distinct(src.minimized)
  {
    ImportKeepsTheTree(src, newId, order, ids);
    ImportKeepsTheView(src, newId, order, ids);
  }

  lemma ImportKeepsTheView(src: Workspace, newId: string, order: seq<string>, ids: seq<string>)
    requires ViewOk(src) && Rekeying(src, order, ids)
    ensures var out := ImportWorkspace(src, newId, order, ids);
      ViewOk(out) && KeysOk(out) && (Distinct(out.minimized) <==> Distinct(src.minimized))
  {
    var out, m := ImportWorkspace(src, newId, order, ids), IdMap(order, ids);
    IdMapIsBijection(src, order, ids);
    ImportedPanes(src, newId, order, ids);
    KnownIsWholeList(src.minimized, m);
    RenameListDistinctIff(m, src.minimized);
    forall q | q in out.panes ensures out.panes[q].paneId == q { var p :| p in m && m[p] == q; }
    forall q | q in out.minimized ensures q in out.panes {
      var i :| 0 <= i < |out.minimized| && out.minimized[i] == q; assert q == m[src.minimized[i]];
    }
    if out.maximized.Some? { RenameListMembers(m, src.minimized, src.maximized.value); }
  }

  lemma ImportKeepsTheTree(src: Workspace, newId: string, order: seq<string>, ids: seq<string>)
    requires ViewOk(src) && Rekeying(src, order, ids)
    requires Separates(IdMap(order, ids), LeavesOf(src.layout))
    ensures TreeOk(ImportWorkspace(src, newId, order, ids)) <==> TreeOk(src)
  {
    var out, m := ImportWorkspace(src, newId, order, ids), IdMap(order, ids);
    var leaves := LeavesOf(src.layout);
    IdMapIsBijection(src, order, ids);
    ImportedPanes(src, newId, order, ids);
    KnownIsWholeList(src.minimized, m);
    if src.layout.Some? { RenameLeaves(src.layout.value, m); }
    assert LeavesOf(out.layout) == RenameList(leaves, m);
    RenameListDistinctIff(m, leaves);
    forall x | x in leaves ensures Renamed(m, x) in out.panes <==> x in src.panes {
      if x in m { assert m[x] in m.Values; }
    }
    forall x | x in src.panes ensures m[x] in LeavesOf(out.layout) <==> x in leaves { RenameListMembers(m, leaves, x); }
    forall x | x in src.panes ensures m[x] in out.minimized <==> x in src.minimized {
      RenameListMembers(m, src.minimized, x);
    }
    TreesCorrespond(src, out, m);
  }

  lemma TreesCorrespond(a: Workspace, b: Workspace, m: map<string, string>)
    requires m.Keys == a.panes.Keys && m.Values == b.panes.Keys
    requires LeavesOf(b.layout) == RenameList(LeavesOf(a.layout), m)
    requires Distinct(LeavesOf(b.layout)) <==> Distinct(LeavesOf(a.layout))
    requires forall x :: x in LeavesOf(a.layout) ==> (Renamed(m, x) in b.panes <==> x in a.panes)
    requires forall x :: x in a.panes ==> (m[x] in LeavesOf(b.layout) <==> x in LeavesOf(a.layout))
    requires forall x :: x in a.panes ==> (m[x] in b.minimized <==> x in a.minimized)
    ensures TreeOk(b) <==> TreeOk(a)
  {
    LeavesCorrespond(LeavesOf(a.layout), LeavesOf(b.layout), a.panes.Keys, b.panes.Keys, m);
    TilesCorrespond(a, b, m);
  }

  lemma LeavesCorrespond(la: seq<string>, lb: seq<string>, pa: set<string>, pb: set<string>, m: map<string, string>)
    requires lb == RenameList(la, m) && forall x :: x in la ==> (Renamed(m, x) in pb <==> x in pa)
    ensures (forall p :: p in lb ==> p in pb) <==> (forall p :: p in la ==> p in pa)
  {
    if forall p :: p in lb ==> p in pb {
      forall p | p in la ensures p in pa { var i :| 0 <= i < |la| && la[i] == p; assert lb[i] == Renamed(m, p); }
    }
    if forall p :: p in la ==> p in pa {
      forall q | q in lb ensures q in pb { var i :| 0 <= i < |lb| && lb[i] == q; assert q == Renamed(m, la[i]); }
    }
  }

  lemma TilesCorrespond(a: Workspace, b: Workspace, m: map<string, string>)
    requires m.Keys == a.panes.Keys && m.Values == b.panes.Keys
    requires forall x :: x in a.panes ==> (m[x] in LeavesOf(b.layout) <==> x in LeavesOf(a.layout))
    requires forall x :: x in a.panes ==> (m[x] in b.minimized <==> x in a.minimized)
    ensures (forall q :: q in b.panes && q !in b.minimized ==> q in LeavesOf(b.layout)) <==>
      (forall p :: p in a.panes && p !in a.minimized ==> p in LeavesOf(a.layout))
  {
    var la, lb := LeavesOf(a.layout), LeavesOf(b.layout);
    if forall q :: q in b.panes && q !in b.minimized ==> q in lb {
      forall p | p in a.panes && p !in a.minimized ensures p in la { assert m[p] in m.Values; }
    }
    if forall p :: p in a.panes && p !in a.minimized ==> p in la {
      forall q | q in b.panes && q !in b.minimized ensures q in lb { var p :| p in m && m[p] == q; }
    }
  }

  /**
   * Saving a sound workspace as a document and importing it under fresh non-empty ids gives an
   * isomorphic, sound, independent workspace.
   */
  lemma DocumentRoundTrip(write: Envelope -> string, read: string -> Option<Envelope>, ws: Workspace, newId: string,
      order: seq<string>, ids: seq<string>)
    requires read(write(Enveloped(ws))) == Some(Enveloped(ws))
    requires LayoutOk(ws) && BindingsOk(ws) && Rekeying(ws, order, ids)
    requires "" !in ws.panes && "" !in ids
    ensures var loaded := Deserialize(read, Serialize(write, ws));
      && loaded == Good(ws)
      && Isomorphic(ws, ImportWorkspace(ws, newId, order, ids), IdMap(order, ids))
      && LayoutOk(ImportWorkspace(ws, newId, order, ids))
      && ImportWorkspace(ws, newId, order, ids).panes.Keys == SetOf(ids)
  {
    SaveThenLoadIff(write, read, ws);
    IdMapIsBijection(ws, order, ids);
    if ws.maximized.Some? { assert IdMap(order, ids)[ws.maximized.value] in IdMap(order, ids).Values; }
    ImportIsRenamingIff(ws, newId, order, ids);
    ImportIsSoundIff(ws, newId, order, ids);
    ImportOwnsItsPanes(ws, newId, order, ids);
  }

  // ---------------------------------------------------------------- the loops

  method DrawIds(order: seq<string>, ids: seq<string>) returns (idMap: map<string, string>)
    requires |order| <= |ids|
    ensures idMap == IdMap(order, ids)
  {
    idMap := map[];
    for k := 0 to |order|
      invariant idMap == IdMap(order[..k], ids)
    {
      idMap := idMap[order[k] := ids[k]];
      assert order[..k + 1][..k] == order[..k];
    }
    assert order[..|order|] == order;
  }

  method RebuildPanes(order: seq<string>, panes: map<string, Pane>, idMap: map<string, string>)
    returns (panes': map<string, Pane>)
    requires forall p :: p in order ==> p in panes && p in idMap
    ensures panes' == RenamePanes(order, panes, idMap)
  {
    panes' := map[];
    var k := 0;
    while k < |order|
      invariant 0 <= k <= |order| && panes' == RenamePanes(order[..k], panes, idMap)
    {
      var newId := idMap[order[k]];
      assert order[..k + 1][..k] == order[..k] && order[..k + 1][k] == order[k];
      assert forall p :: p in order[..k + 1] ==> p in order;
      panes' := panes'[newId := Pane(newId, panes[order[k]].config)];
      k := k + 1;
    }
    assert order[..|order|] == order;
  }

  /** Draw one fresh id for each pane, then rename the tree and rebuild the pane table. */
  method RemapPaneIds(layout: Option<Node>, panes: map<string, Pane>, order: seq<string>, ids: seq<string>)
    returns (layout': Option<Node>, panes': map<string, Pane>, idMap: map<string, string>)
    requires Distinct(order) && |order| <= |ids| && forall p :: p in order <==> p in panes
    ensures idMap == IdMap(order, ids) && idMap.Keys == panes.Keys
    ensures layout' == RenameTree(layout, idMap)
    ensures panes' == RenamePanes(order, panes, idMap)
  {
    idMap := DrawIds(order, ids);
    IdMapPairs(order, ids);
    assert idMap.Keys == panes.Keys;
    panes' := RebuildPanes(order, panes, idMap);
    layout' := RenameTree(layout, idMap);
  }
}
