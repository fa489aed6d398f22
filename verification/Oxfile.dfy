/** host.toml as translate.rs reads it, its validation, and the process names it turns into.
    TOML parsing is outside: a configuration here is a parsed one. */
module OxfileSpec {
  import opened Wrappers

  datatype Camera = Camera(id: string, source: Option<string>, fps: Option<nat>)

  datatype Stream = Stream(id: string, camera: Option<string>, codec: Option<string>)

  datatype HostConfig = HostConfig(cameras: seq<Camera>, streams: seq<Stream>, recordEnabled: Option<bool>)

  const FIXED_BASES := ["agent", "recorder", "controller", "emergency", "audio"]
  const RECORDER := "recorder"
  const CAPTURER := "capturer"
  const STREAMER := "streamer"

  predicate IsIdChar(c: char) {
    'a' <= c <= 'z' || 'A' <= c <= 'Z' || '0' <= c <= '9' || c == '-' || c == '_'
  }

  predicate ValidId(id: string) {
    id != "" && forall i :: 0 <= i < |id| ==> IsIdChar(id[i])
  }

  function CameraIds(cfg: HostConfig): seq<string> {
    seq(|cfg.cameras|, i requires 0 <= i < |cfg.cameras| => cfg.cameras[i].id)
  }

  function StreamIds(cfg: HostConfig): seq<string> {
    seq(|cfg.streams|, i requires 0 <= i < |cfg.streams| => cfg.streams[i].id)
  }

  predicate Distinct<T(==)>(s: seq<T>) {
    forall i, j :: 0 <= i < j < |s| ==> s[i] != s[j]
  }

  predicate Repeated(s: seq<string>, id: string) {
    exists i, j :: 0 <= i < j < |s| && s[i] == id && s[j] == id
  }

  predicate ValidConfig(cfg: HostConfig) {
    && (forall i :: 0 <= i < |cfg.cameras| ==> cfg.cameras[i].fps != Some(0))
    && (forall i :: 0 <= i < |cfg.cameras| ==> ValidId(cfg.cameras[i].id))
    && (forall i :: 0 <= i < |cfg.streams| ==> ValidId(cfg.streams[i].id))
    && Distinct(CameraIds(cfg)) && Distinct(StreamIds(cfg))
  }

  predicate RecordEnabled(cfg: HostConfig) {
    cfg.recordEnabled == Some(true)
  }

  // ---- Names -----------------------------------------------------------------------------

  function AppName(prefix: string, base: string): string {
    prefix + base
  }

  function InstanceName(kind: string, id: string): string {
    kind + "-" + id
  }

  function Names(f: string -> string, ids: seq<string>): seq<string> {
    seq(|ids|, i requires 0 <= i < |ids| => f(ids[i]))
  }

  function FixedNames(prefix: string): seq<string> {
    Names(base => AppName(prefix, base), FIXED_BASES)
  }

  function CapturerNames(prefix: string, cfg: HostConfig): seq<string> {
    Names(id => InstanceName(AppName(prefix, CAPTURER), id), CameraIds(cfg))
  }

  function StreamerNames(prefix: string, cfg: HostConfig): seq<string> {
    Names(id => InstanceName(AppName(prefix, STREAMER), id), StreamIds(cfg))
  }

  /** The app names of the generated oxfile, in order. */
  function OxfileNames(prefix: string, cfg: HostConfig): seq<string> {
    FixedNames(prefix) + CapturerNames(prefix, cfg) + StreamerNames(prefix, cfg)
  }

  function Except(names: seq<string>, name: string): (r: seq<string>)
    ensures forall n :: n in r <==> n in names && n != name
  {
    if names == [] then []
    else Except(names[..|names| - 1], name) + (if names[|names| - 1] == name then [] else [names[|names| - 1]])
  }

  /** Live processes that the new oxfile does not list. */
  function RemovedApps(live: seq<string>, desired: seq<string>): (r: seq<string>)
    ensures forall n :: n in r <==> n in live && n !in desired
  {
    if live == [] then []
    else (if live[0] in desired then [] else [live[0]]) + RemovedApps(live[1..], desired)
  }

  // ---- What the names promise ------------------------------------------------------------

  /** Fixed processes and the two instance kinds never share a name, whatever the ids. */
  lemma KindsNeverCollide(prefix: string, base: string, cam: string, stream: string)
    requires base in FIXED_BASES
    ensures AppName(prefix, base) != InstanceName(AppName(prefix, CAPTURER), cam)
    ensures AppName(prefix, base) != InstanceName(AppName(prefix, STREAMER), stream)
    ensures InstanceName(AppName(prefix, CAPTURER), cam) != InstanceName(AppName(prefix, STREAMER), stream)
  {
    var k := |prefix|;
    var fixed, capturer, streamer := AppName(prefix, base), InstanceName(AppName(prefix, CAPTURER), cam),
                                     InstanceName(AppName(prefix, STREAMER), stream);
    assert fixed[k] == base[0] && fixed[k + 1] == base[1];
    assert capturer[k] == 'c' && capturer[k + 1] == 'a';
    assert streamer[k] == 's';
  }

  lemma InstanceNamesAreInjective(kind: string, a: string, b: string)
    requires InstanceName(kind, a) == InstanceName(kind, b)
    ensures a == b
  {
    assert InstanceName(kind, a)[|kind| + 1..] == a;
    assert InstanceName(kind, b)[|kind| + 1..] == b;
  }

  lemma FixedNamesAreDistinct(prefix: string)
    ensures Distinct(FixedNames(prefix))
  {
    var k := |prefix|;
    forall i, j | 0 <= i < j < |FIXED_BASES|
      ensures FixedNames(prefix)[i] != FixedNames(prefix)[j]
    {
      assert FixedNames(prefix)[i][k..] == FIXED_BASES[i];
      assert FixedNames(prefix)[j][k..] == FIXED_BASES[j];
      assert FIXED_BASES[i][0] != FIXED_BASES[j][0] || FIXED_BASES[i][1] != FIXED_BASES[j][1];
    }
  }

  lemma InstanceNamesAreDistinct(kind: string, ids: seq<string>)
    requires Distinct(ids)
    ensures Distinct(Names(id => InstanceName(kind, id), ids))
  {
    var names := Names(id => InstanceName(kind, id), ids);
    forall i, j | 0 <= i < j < |names|
      ensures names[i] != names[j]
    {
      if names[i] == names[j] {
        InstanceNamesAreInjective(kind, ids[i], ids[j]);
      }
    }
  }

  lemma DistinctAppend(a: seq<string>, b: seq<string>)
    requires Distinct(a) && Distinct(b) && (forall x, y :: x in a && y in b ==> x != y)
    ensures Distinct(a + b)
  {
    forall i, j | 0 <= i < j < |a + b|
      ensures (a + b)[i] != (a + b)[j]
    {
      if i < |a| <= j {
        assert a[i] in a && b[j - |a|] in b;
      }
    }
  }

  /** No accepted configuration makes two processes of one name. */
  lemma AcceptedNamesAreDistinct(prefix: string, cfg: HostConfig)
    requires ValidConfig(cfg)
    ensures Distinct(OxfileNames(prefix, cfg))
  {
    var fixed, capturers, streamers := FixedNames(prefix), CapturerNames(prefix, cfg), StreamerNames(prefix, cfg);
    FixedNamesAreDistinct(prefix);
    InstanceNamesAreDistinct(AppName(prefix, CAPTURER), CameraIds(cfg));
    InstanceNamesAreDistinct(AppName(prefix, STREAMER), StreamIds(cfg));
    forall x, y | x in fixed && y in capturers
      ensures x != y
    {
      var i, j :| 0 <= i < |fixed| && x == fixed[i] && 0 <= j < |capturers| && y == capturers[j];
      KindsNeverCollide(prefix, FIXED_BASES[i], CameraIds(cfg)[j], "");
    }
    DistinctAppend(fixed, capturers);
    forall x, y | x in fixed + capturers && y in streamers
      ensures x != y
    {
      var j :| 0 <= j < |streamers| && y == streamers[j];
      if x in fixed {
        var i :| 0 <= i < |fixed| && x == fixed[i];
        KindsNeverCollide(prefix, FIXED_BASES[i], "", StreamIds(cfg)[j]);
      } else {
        var i :| 0 <= i < |capturers| && x == capturers[i];
        KindsNeverCollide(prefix, "agent", CameraIds(cfg)[i], StreamIds(cfg)[j]);
      }
    }
    DistinctAppend(fixed + capturers, streamers);
  }

  /** The names spelled out: five fixed processes, one capturer a camera, one streamer a stream. */
  lemma NamesSpelledOut(prefix: string, cfg: HostConfig, name: string)
    ensures name in OxfileNames(prefix, cfg)
            <==> || name in [prefix + "agent", prefix + "recorder", prefix + "controller", prefix + "emergency", prefix + "audio"]
                 || (exists i :: 0 <= i < |cfg.cameras| && name == prefix + "capturer" + "-" + cfg.cameras[i].id)
                 || (exists i :: 0 <= i < |cfg.streams| && name == prefix + "streamer" + "-" + cfg.streams[i].id)
  {
    assert FixedNames(prefix)
           == [prefix + "agent", prefix + "recorder", prefix + "controller", prefix + "emergency", prefix + "audio"];
    assert forall i :: 0 <= i < |cfg.cameras| ==>
             CapturerNames(prefix, cfg)[i] == prefix + "capturer" + "-" + cfg.cameras[i].id;
    assert forall i :: 0 <= i < |cfg.streams| ==>
             StreamerNames(prefix, cfg)[i] == prefix + "streamer" + "-" + cfg.streams[i].id;
  }

  /** The characters of an id are the ASCII digits, letters, hyphen and underscore, by their codes. */
  lemma IdCharsByCode(c: char)
    ensures IsIdChar(c) <==> 48 <= c as int <= 57 || 65 <= c as int <= 90 || 97 <= c as int <= 122
                             || c as int == 45 || c as int == 95
  {
  }

  function ExpectedNames(prefix: string, cfg: HostConfig): seq<string> {
    (if RecordEnabled(cfg) then FixedNames(prefix) else Except(FixedNames(prefix), AppName(prefix, RECORDER)))
    + CapturerNames(prefix, cfg) + StreamerNames(prefix, cfg)
  }

  /** The monitor expects exactly the oxfile's processes, less the recorder when it is disabled. */
  lemma ExpectedAreTheOxfileNames(prefix: string, cfg: HostConfig, name: string)
    ensures name in ExpectedNames(prefix, cfg)
            <==> name in OxfileNames(prefix, cfg) && (cfg.recordEnabled == Some(true) || name != prefix + "recorder")
    ensures prefix + "recorder" in OxfileNames(prefix, cfg)
  {
    var recorder := AppName(prefix, RECORDER);
    assert FixedNames(prefix)[1] == recorder;
    if name == recorder {
      if i :| 0 <= i < |CapturerNames(prefix, cfg)| && CapturerNames(prefix, cfg)[i] == name {
        KindsNeverCollide(prefix, RECORDER, CameraIds(cfg)[i], "");
      }
      if i :| 0 <= i < |StreamerNames(prefix, cfg)| && StreamerNames(prefix, cfg)[i] == name {
        KindsNeverCollide(prefix, RECORDER, "", StreamIds(cfg)[i]);
      }
    }
  }

  /** Names depend on the ids alone: a configuration that keeps the ids keeps the names. */
  lemma GrowingKeepsNames(prefix: string, cfg: HostConfig, more: HostConfig, name: string)
    requires forall id :: id in CameraIds(cfg) ==> id in CameraIds(more)
    requires forall id :: id in StreamIds(cfg) ==> id in StreamIds(more)
    requires name in OxfileNames(prefix, cfg)
    ensures name in OxfileNames(prefix, more)
  {
    if i :| 0 <= i < |CapturerNames(prefix, cfg)| && CapturerNames(prefix, cfg)[i] == name {
      assert CameraIds(cfg)[i] in CameraIds(more);
      var j :| 0 <= j < |CameraIds(more)| && CameraIds(more)[j] == CameraIds(cfg)[i];
      assert CapturerNames(prefix, more)[j] == name;
    }
    if i :| 0 <= i < |StreamerNames(prefix, cfg)| && StreamerNames(prefix, cfg)[i] == name {
      assert StreamIds(cfg)[i] in StreamIds(more);
      var j :| 0 <= j < |StreamIds(more)| && StreamIds(more)[j] == StreamIds(cfg)[i];
      assert StreamerNames(prefix, more)[j] == name;
    }
  }
}

module Oxfile {
  import opened Wrappers
  import opened OxfileSpec

  datatype ConfigError = ZeroFps(id: string) | BadId(id: string) | DuplicateId(id: string)

  datatype App = App(name: string, restartPolicy: string)

  method Validate(cfg: HostConfig) returns (error: Option<ConfigError>)
    ensures error.None? <==> ValidConfig(cfg)
    ensures error.Some? && error.value.ZeroFps? ==>
              exists i :: 0 <= i < |cfg.cameras| && cfg.cameras[i].id == error.value.id && cfg.cameras[i].fps == Some(0)
    ensures error.Some? && error.value.BadId? ==>
              !ValidId(error.value.id) && (error.value.id in CameraIds(cfg) || error.value.id in StreamIds(cfg))
    ensures error.Some? && error.value.DuplicateId? ==>
              Repeated(CameraIds(cfg), error.value.id) || Repeated(StreamIds(cfg), error.value.id)
  {
    for i := 0 to |cfg.cameras|
      invariant forall k :: 0 <= k < i ==> cfg.cameras[k].fps != Some(0)
    {
      if cfg.cameras[i].fps == Some(0) {
        return Some(ZeroFps(cfg.cameras[i].id));
      }
    }
    error := CheckIds(CameraIds(cfg));
    if error.Some? {
      return;
    }
    error := CheckIds(StreamIds(cfg));
    assert forall i :: 0 <= i < |cfg.cameras| ==> ValidId(CameraIds(cfg)[i]) && CameraIds(cfg)[i] == cfg.cameras[i].id;
    assert error.None? ==> forall i :: 0 <= i < |cfg.streams| ==> ValidId(StreamIds(cfg)[i]) && StreamIds(cfg)[i] == cfg.streams[i].id;
    assert forall i :: 0 <= i < |cfg.streams| ==> StreamIds(cfg)[i] == cfg.streams[i].id;
  }

  method CheckIds(ids: seq<string>) returns (error: Option<ConfigError>)
    ensures error.None? <==> Distinct(ids) && forall i :: 0 <= i < |ids| ==> ValidId(ids[i])
    ensures error.Some? ==> !error.value.ZeroFps? && error.value.id in ids
    ensures error.Some? && error.value.BadId? ==> !ValidId(error.value.id)
    ensures error.Some? && error.value.DuplicateId? ==> Repeated(ids, error.value.id)
  {
    var seen: set<string> := {};
    for i := 0 to |ids|
      invariant forall k :: 0 <= k < i ==> ValidId(ids[k])
      invariant forall id :: id in seen <==> id in ids[..i]
      invariant Distinct(ids[..i])
    {
      if !ValidId(ids[i]) {
        return Some(BadId(ids[i]));
      }
      if ids[i] in seen {
        ghost var k :| 0 <= k < i && ids[..i][k] == ids[i];
        assert ids[k] == ids[i];
        return Some(DuplicateId(ids[i]));
      }
      seen := seen + {ids[i]};
      assert ids[..i + 1] == ids[..i] + [ids[i]];
    }
    assert ids[..|ids|] == ids;
    error := None;
  }

  /** The `[[apps]]` entries appended by the three loops of `to_oxfile_with_paths`. The recorder exits
      cleanly when disabled and is restarted on failure only. */
  method WriteApps(prefix: string, cfg: HostConfig) returns (apps: seq<App>)
    ensures |apps| == |OxfileNames(prefix, cfg)|
    ensures forall i :: 0 <= i < |apps| ==>
              && apps[i].name == OxfileNames(prefix, cfg)[i]
              && apps[i].restartPolicy == (if apps[i].name == prefix + "recorder" then "on_failure" else "always")
  {
    var names := OxfileNames(prefix, cfg);
    var f, c := |FIXED_BASES|, |cfg.cameras|;
    apps := [];
    for i := 0 to f
      invariant |apps| == i
      invariant forall k :: 0 <= k < i ==> Entry(prefix, names[k], apps[k])
    {
      var name := AppName(prefix, FIXED_BASES[i]);
      assert names[i] == FixedNames(prefix)[i];
      apps := apps + [App(name, if name == AppName(prefix, RECORDER) then "on_failure" else "always")];
    }
    for i := 0 to c
      invariant |apps| == f + i
      invariant forall k :: 0 <= k < f + i ==> Entry(prefix, names[k], apps[k])
    {
      var name := InstanceName(AppName(prefix, CAPTURER), cfg.cameras[i].id);
      KindsNeverCollide(prefix, RECORDER, cfg.cameras[i].id, "");
      assert names[f + i] == CapturerNames(prefix, cfg)[i];
      apps := apps + [App(name, "always")];
    }
    for i := 0 to |cfg.streams|
      invariant |apps| == f + c + i
      invariant forall k :: 0 <= k < f + c + i ==> Entry(prefix, names[k], apps[k])
    {
      var name := InstanceName(AppName(prefix, STREAMER), cfg.streams[i].id);
      KindsNeverCollide(prefix, RECORDER, "", cfg.streams[i].id);
      assert names[f + c + i] == StreamerNames(prefix, cfg)[i];
      apps := apps + [App(name, "always")];
    }
  }

  predicate Entry(prefix: string, name: string, app: App) {
    && app.name == name
    && app.restartPolicy == (if name == prefix + "recorder" then "on_failure" else "always")
  }

  method ExpectedProcessNames(prefix: string, cfg: HostConfig) returns (names: seq<string>)
    ensures names == ExpectedNames(prefix, cfg)
  {
    names := FixedNames(prefix);
    if !RecordEnabled(cfg) {
      names := Except(names, AppName(prefix, RECORDER));
    }
    ghost var fixed := names;
    for i := 0 to |cfg.cameras|
      invariant names == fixed + CapturerNames(prefix, cfg)[..i]
    {
      names := names + [InstanceName(AppName(prefix, CAPTURER), cfg.cameras[i].id)];
    }
    ghost var instances := fixed + CapturerNames(prefix, cfg);
    for i := 0 to |cfg.streams|
      invariant names == instances + StreamerNames(prefix, cfg)[..i]
    {
      names := names + [InstanceName(AppName(prefix, STREAMER), cfg.streams[i].id)];
    }
  }

  /** `oxmgr_apply`: applying starts what the oxfile lists and is missing, and every other live app is
      then deleted, where a deletion that fails is only logged. The three answers of the process manager
      are parameters; `after` is what runs at the end. It is what is desired exactly when every needed
      deletion succeeds. */
  method OxmgrApply(live: set<string>, desired: seq<string>, applies: bool, lists: bool, deletes: string -> bool)
      returns (ok: bool, after: set<string>)
    ensures ok == (applies && lists)
    ensures ok ==> forall name :: name in after <==> name in desired || (name in live && !deletes(name))
    ensures ok ==> ((forall name :: name in after <==> name in desired)
                    <==> (forall name :: name in live && name !in desired ==> deletes(name)))
    ensures !ok ==> live <= after && forall name :: name in after ==> name in live || name in desired
  {
    if !applies {
      return false, live;
    }
    after := live + (set name | name in desired);
    if !lists {
      return false, after;
    }
    ghost var started := after;
    var listed := Listing(after);
    var removed := RemovedApps(listed, desired);
    for i := 0 to |removed|
      invariant forall name :: name in after <==> name in started && !(name in removed[..i] && deletes(name))
    {
      if deletes(removed[i]) {
        after := after - {removed[i]};
      }
      assert removed[..i + 1] == removed[..i] + [removed[i]];
    }
    assert removed[..|removed|] == removed;
    ok := true;
  }

  /** The order in which `oxmgr list` names them is its own. */
  method Listing(apps: set<string>) returns (names: seq<string>)
    ensures forall name :: name in names <==> name in apps
  {
    names := [];
    var todo := apps;
    while todo != {}
      invariant todo <= apps
      invariant forall name :: name in names <==> name in apps - todo
      decreases todo
    {
      var name :| name in todo;
      names := names + [name];
      todo := todo - {name};
    }
  }
}
