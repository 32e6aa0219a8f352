/** The loader's cache: every file of the manifest is checked, downloaded and moved into place, and
    files that are no longer listed are removed. Each state the directory passes through is recorded,
    since the loader may be stopped in any of them. */
module OtaLoader {
  import opened Common

  datatype Content = File(bytes: seq<byte>, readable: bool) | Directory

  /** The entries of the cache directory. */
  type Files = map<string, Content>

  /** A text as its UTF-8 bytes. */
  type Utf8 = seq<byte>

  datatype FileEntry = FileEntry(sha256: Utf8)

  type Manifest = map<string, FileEntry>

  /** How writing a file ends: complete, stopped after some bytes, or refused before anything changed. */
  datatype WriteOutcome = Complete | StoppedAfter(bytes: nat) | Refused

  /** What the world does while one file is synced. */
  datatype Attempt = Attempt(download: Option<seq<byte>>, write: WriteOutcome, renames: bool)

  /** `Panicked` is the abort on a manifest hash that cannot be abbreviated in a message. */
  datatype Outcome = Done | Failed | Panicked

  function Tmp(name: string): string {
    "." + name + ".tmp"
  }

  lemma TmpDiffers(name: string)
    ensures Tmp(name) != name
  {
    assert |Tmp(name)| == |name| + 5;
  }

  /** The first sixteen bytes of a text are whole characters. */
  predicate Abbreviable(h: Utf8) {
    |h| == 16 || (|h| > 16 && !(0x80 <= h[16] < 0xC0))
  }

  // ---- The states of one sync ----

  predicate IsDirectory(fs: Files, name: string) {
    name in fs && fs[name].Directory?
  }

  predicate Matches(hash: seq<byte> -> Utf8, fs: Files, name: string, entry: FileEntry) {
    name in fs && fs[name].File? && fs[name].readable && hash(fs[name].bytes) == entry.sha256
  }

  function Final(fs: Files, states: seq<Files>): Files {
    if states == [] then fs else states[|states| - 1]
  }

  predicate Opens(fs: Files, name: string, outcome: WriteOutcome) {
    !outcome.Refused? && !IsDirectory(fs, name)
  }

  function BytesWritten(data: seq<byte>, outcome: WriteOutcome): (n: nat)
    ensures n <= |data|
  {
    if outcome.StoppedAfter? && outcome.bytes < |data| then outcome.bytes else |data|
  }

  /** A file is truncated and then written byte by byte. */
  function WriteStates(fs: Files, name: string, data: seq<byte>, outcome: WriteOutcome): seq<Files> {
    if Opens(fs, name, outcome)
    then seq(BytesWritten(data, outcome) + 1, n requires 0 <= n <= |data| => fs[name := File(data[..n], true)])
    else []
  }

  /** A rename is one step, or none. */
  function RenameStates(fs: Files, from: string, to: string, renames: bool): seq<Files>
    requires from in fs
  {
    if renames && !IsDirectory(fs, to) then [(fs - {from})[to := fs[from]]] else []
  }

  /** The states that syncing passes through, and how it ends. */
  datatype Synced = Synced(states: seq<Files>, outcome: Outcome)

  /** Verified bytes are written to the temporary file, which is then moved into place. */
  function Place(fs: Files, name: string, data: seq<byte>, world: Attempt): Synced {
    var written := WriteStates(fs, Tmp(name), data, world.write);
    if !Opens(fs, Tmp(name), world.write) || !world.write.Complete? then Synced(written, Failed)
    else
      var renamed := RenameStates(Final(fs, written), Tmp(name), name, world.renames);
      if renamed == [] then Synced(written, Failed) else Synced(written + renamed, Done)
  }

  function Sync(hash: seq<byte> -> Utf8, fs: Files, name: string, entry: FileEntry, world: Attempt): Synced {
    if Matches(hash, fs, name, entry) then Synced([], Done)
    else if name in fs && fs[name].File? && fs[name].readable && !Abbreviable(entry.sha256) then Synced([], Panicked)
    else if world.download.None? then Synced([], Failed)
    else if hash(world.download.value) != entry.sha256 then
      Synced([], if Abbreviable(entry.sha256) then Failed else Panicked)
    else Place(fs, name, world.download.value, world)
  }

  /** The files from the `i`-th of the order on, until one does not succeed. */
  function SyncAll(hash: seq<byte> -> Utf8, fs: Files, manifest: Manifest, order: seq<string>, i: nat,
                   world: string -> Attempt): Synced
    requires i <= |order| && forall name :: name in order ==> name in manifest
    decreases |order| - i
  {
    if i == |order| then Synced([], Done)
    else
      var s := Sync(hash, fs, order[i], manifest[order[i]], world(order[i]));
      if !s.outcome.Done? then s
      else
        var rest := SyncAll(hash, Final(fs, s.states), manifest, order, i + 1, world);
        Synced(s.states + rest.states, rest.outcome)
  }

  // ---- What is promised of every state ----

  predicate Same(s: Files, t: Files, name: string) {
    (name in s <==> name in t) && (name in s ==> s[name] == t[name])
  }

  /** A state of a whole run: every managed name holds its initial content or the listed bytes. */
  ghost predicate Safe(hash: seq<byte> -> Utf8, s: Files, initial: Files, manifest: Manifest) {
    forall name :: name in manifest ==> Same(s, initial, name) || Matches(hash, s, name, manifest[name])
  }

  ghost predicate AllSafe(hash: seq<byte> -> Utf8, states: seq<Files>, initial: Files, manifest: Manifest) {
    forall k :: 0 <= k < |states| ==> Safe(hash, states[k], initial, manifest)
  }

  ghost predicate AllMatch(hash: seq<byte> -> Utf8, s: Files, manifest: Manifest) {
    forall name :: name in manifest ==> Matches(hash, s, name, manifest[name])
  }

  predicate Dotted(name: string) {
    name != "" && name[0] == '.'
  }

  /** Entries that the cleanup leaves alone. */
  predicate Kept(name: string, manifest: Manifest) {
    Dotted(name) || name == "manifest.json" || name in manifest
  }

  /** A state while stale files are removed: only unmanaged entries can be gone. */
  ghost predicate Cleaning(s: Files, before: Files, manifest: Manifest) {
    && (forall name :: name in s ==> name in before && s[name] == before[name])
    && (forall name :: name in before && Kept(name, manifest) ==> name in s)
  }

  /** No managed file is the temporary file of another. */
  ghost predicate NoClash(manifest: Manifest) {
    forall name :: name in manifest ==> Tmp(name) !in manifest
  }

  /** Some content has this hash, so that a download can be accepted for it. */
  ghost predicate Obtainable(hash: seq<byte> -> Utf8, sha256: Utf8) {
    exists data :: hash(data) == sha256
  }

  /** A managed file whose temporary file is another managed one can never be downloaded. */
  ghost predicate Harmless(hash: seq<byte> -> Utf8, manifest: Manifest) {
    forall name :: name in manifest && Tmp(name) in manifest ==> !Obtainable(hash, manifest[name].sha256)
  }

  lemma NoClashIsHarmless(hash: seq<byte> -> Utf8, manifest: Manifest)
    requires NoClash(manifest)
    ensures Harmless(hash, manifest)
  {
  }

  lemma DotlessNamesDoNotClash(manifest: Manifest)
    requires forall name :: name in manifest ==> !Dotted(name)
    ensures NoClash(manifest)
  {
    forall name | name in manifest ensures Tmp(name) !in manifest {
      assert Dotted(Tmp(name));
    }
  }

  // ---- One sync ----

  /** A state while `name` is synced: nothing but its temporary file differs, except that `name` may
      already hold the listed bytes. */
  ghost predicate During(hash: seq<byte> -> Utf8, s: Files, before: Files, name: string, entry: FileEntry) {
    && (forall other :: other != name && other != Tmp(name) ==> Same(s, before, other))
    && (Same(s, before, name) || Matches(hash, s, name, entry))
  }

  /** Two states that differ in one entry at most. */
  ghost predicate OnlyAt(s: Files, t: Files, name: string) {
    forall other :: other != name ==> Same(s, t, other)
  }

  lemma WriteChangesOneEntry(fs: Files, name: string, data: seq<byte>, outcome: WriteOutcome, k: nat)
    requires k < |WriteStates(fs, name, data, outcome)|
    ensures OnlyAt(WriteStates(fs, name, data, outcome)[k], fs, name)
  {
  }

  lemma CompleteWrite(fs: Files, name: string, data: seq<byte>, outcome: WriteOutcome)
    requires Opens(fs, name, outcome) && outcome.Complete?
    ensures Final(fs, WriteStates(fs, name, data, outcome)) == fs[name := File(data, true)]
  {
    assert data[..|data|] == data;
  }

  /** Writing the temporary file is within the sync of its file. */
  lemma WritingIsDuring(hash: seq<byte> -> Utf8, s: Files, before: Files, name: string, entry: FileEntry)
    requires OnlyAt(s, before, Tmp(name))
    ensures During(hash, s, before, name, entry)
  {
    TmpDiffers(name);
    assert Same(s, before, name);
  }

  /** Moving the temporary file into place leaves the listed bytes under the name. */
  lemma RenamingIsDuring(hash: seq<byte> -> Utf8, fs: Files, name: string, entry: FileEntry, data: seq<byte>)
    requires hash(data) == entry.sha256
    ensures var s := fs[Tmp(name) := File(data, true)];
            var t := (s - {Tmp(name)})[name := s[Tmp(name)]];
            During(hash, t, fs, name, entry) && Matches(hash, t, name, entry) && Tmp(name) !in t
  {
    TmpDiffers(name);
  }

  /** Every state of a sync, and what it leaves. */
  ghost predicate GoodSync(hash: seq<byte> -> Utf8, fs: Files, name: string, entry: FileEntry, s: Synced) {
    && (forall k :: 0 <= k < |s.states| ==> During(hash, s.states[k], fs, name, entry))
    && (s.outcome.Done? ==> Matches(hash, Final(fs, s.states), name, entry))
    && (s.outcome.Done? && !Matches(hash, fs, name, entry) ==> Tmp(name) !in Final(fs, s.states))
    && (Matches(hash, fs, name, entry) ==> s == Synced([], Done))
    && (s.outcome.Panicked? ==> s.states == [] && !Abbreviable(entry.sha256))
  }

  lemma PlaceIsGood(hash: seq<byte> -> Utf8, fs: Files, name: string, entry: FileEntry, data: seq<byte>, world: Attempt)
    requires hash(data) == entry.sha256 && !Matches(hash, fs, name, entry)
    ensures GoodSync(hash, fs, name, entry, Place(fs, name, data, world))
  {
    var written := WriteStates(fs, Tmp(name), data, world.write);
    forall k | 0 <= k < |written| ensures During(hash, written[k], fs, name, entry) {
      WriteChangesOneEntry(fs, Tmp(name), data, world.write, k);
      WritingIsDuring(hash, written[k], fs, name, entry);
    }
    if Opens(fs, Tmp(name), world.write) && world.write.Complete? {
      CompleteWrite(fs, Tmp(name), data, world.write);
      RenamingIsDuring(hash, fs, name, entry, data);
    }
  }

  /** In every state on the way nothing but the temporary file differs, and the name holds its old content
      or the listed bytes; success leaves the listed bytes. */
  lemma SyncIsGood(hash: seq<byte> -> Utf8, fs: Files, name: string, entry: FileEntry, world: Attempt)
    ensures GoodSync(hash, fs, name, entry, Sync(hash, fs, name, entry, world))
  {
    if world.download.Some? && hash(world.download.value) == entry.sha256 && !Matches(hash, fs, name, entry) {
      PlaceIsGood(hash, fs, name, entry, world.download.value, world);
    }
  }

  // ---- All files ----

  lemma SafeDuring(hash: seq<byte> -> Utf8, s: Files, before: Files, initial: Files, manifest: Manifest, name: string)
    requires name in manifest && Tmp(name) !in manifest
    requires Safe(hash, before, initial, manifest) && During(hash, s, before, name, manifest[name])
    ensures Safe(hash, s, initial, manifest)
    ensures forall n :: n in manifest && n != name && Matches(hash, before, n, manifest[n]) ==>
              Matches(hash, s, n, manifest[n])
  {
    forall n | n in manifest && n != name ensures Same(s, before, n) {
      assert Tmp(name) != n;
    }
  }

  lemma SafeCleaning(hash: seq<byte> -> Utf8, s: Files, before: Files, initial: Files, manifest: Manifest)
    requires Safe(hash, before, initial, manifest) && Cleaning(s, before, manifest)
    ensures Safe(hash, s, initial, manifest)
    ensures AllMatch(hash, before, manifest) ==> AllMatch(hash, s, manifest)
  {
    forall name | name in manifest
      ensures Same(s, initial, name) || Matches(hash, s, name, manifest[name])
      ensures AllMatch(hash, before, manifest) ==> Matches(hash, s, name, manifest[name])
    {
      assert Kept(name, manifest);
      assert name in before ==> Same(s, before, name);
      assert name !in before ==> Same(s, before, name);
    }
  }

  /** What cannot be downloaded is not written at all. */
  lemma UnobtainableIsNotSynced(hash: seq<byte> -> Utf8, fs: Files, name: string, entry: FileEntry, world: Attempt)
    requires !Obtainable(hash, entry.sha256)
    ensures var s := Sync(hash, fs, name, entry, world); s.states == [] && !s.outcome.Done?
  {
  }

  /** One file of a run: its states are safe, and it leaves the files that matched before matching. */
  lemma SyncKeepsSafe(hash: seq<byte> -> Utf8, fs: Files, initial: Files, manifest: Manifest, name: string,
                      world: Attempt)
    requires name in manifest && Harmless(hash, manifest) && Safe(hash, fs, initial, manifest)
    ensures var s := Sync(hash, fs, name, manifest[name], world);
            && AllSafe(hash, s.states, initial, manifest)
            && Safe(hash, Final(fs, s.states), initial, manifest)
            && (s.outcome.Done? ==> Matches(hash, Final(fs, s.states), name, manifest[name]))
            && (forall n :: n in manifest && n != name && Matches(hash, fs, n, manifest[n]) ==>
                  Matches(hash, Final(fs, s.states), n, manifest[n]))
  {
    var s := Sync(hash, fs, name, manifest[name], world);
    if Tmp(name) in manifest {
      UnobtainableIsNotSynced(hash, fs, name, manifest[name], world);
      return;
    }
    SyncIsGood(hash, fs, name, manifest[name], world);
    forall k | 0 <= k < |s.states| ensures Safe(hash, s.states[k], initial, manifest) {
      SafeDuring(hash, s.states[k], fs, initial, manifest, name);
    }
    if s.states != [] {
      SafeDuring(hash, Final(fs, s.states), fs, initial, manifest, name);
    }
  }

  ghost predicate MatchUpTo(hash: seq<byte> -> Utf8, fs: Files, manifest: Manifest, order: seq<string>, i: nat)
    requires i <= |order| && forall name :: name in order ==> name in manifest
  {
    forall j :: 0 <= j < i ==> Matches(hash, fs, order[j], manifest[order[j]])
  }

  lemma FinalOfConcat(fs: Files, a: seq<Files>, b: seq<Files>)
    ensures Final(fs, a + b) == Final(Final(fs, a), b)
  {
    if b == [] {
      ConcatEmpty(a);
    }
  }

  lemma AllSafeConcat(hash: seq<byte> -> Utf8, a: seq<Files>, b: seq<Files>, initial: Files, manifest: Manifest)
    requires AllSafe(hash, a, initial, manifest) && AllSafe(hash, b, initial, manifest)
    ensures AllSafe(hash, a + b, initial, manifest)
  {
  }

  lemma OneMoreMatches(hash: seq<byte> -> Utf8, fs: Files, manifest: Manifest, order: seq<string>, i: nat,
                       world: Attempt, initial: Files)
    requires i < |order| && forall name :: name in order ==> name in manifest
    requires Harmless(hash, manifest) && Safe(hash, fs, initial, manifest) && MatchUpTo(hash, fs, manifest, order, i)
    ensures var s := Sync(hash, fs, order[i], manifest[order[i]], world);
            && AllSafe(hash, s.states, initial, manifest) && Safe(hash, Final(fs, s.states), initial, manifest)
            && (s.outcome.Done? ==> MatchUpTo(hash, Final(fs, s.states), manifest, order, i + 1))
  {
    SyncKeepsSafe(hash, fs, initial, manifest, order[i], world);
  }

  lemma {:induction false} SyncAllIsSafe(hash: seq<byte> -> Utf8, fs: Files, initial: Files, manifest: Manifest,
                                         order: seq<string>, i: nat, world: string -> Attempt)
    requires i <= |order| && forall name :: name in order ==> name in manifest
    requires Harmless(hash, manifest) && Safe(hash, fs, initial, manifest) && MatchUpTo(hash, fs, manifest, order, i)
    ensures var s := SyncAll(hash, fs, manifest, order, i, world);
            && AllSafe(hash, s.states, initial, manifest) && Safe(hash, Final(fs, s.states), initial, manifest)
            && (s.outcome.Done? ==> MatchUpTo(hash, Final(fs, s.states), manifest, order, |order|))
    decreases |order| - i
  {
    if i < |order| {
      var s := Sync(hash, fs, order[i], manifest[order[i]], world(order[i]));
      OneMoreMatches(hash, fs, manifest, order, i, world(order[i]), initial);
      if s.outcome.Done? {
        var next := Final(fs, s.states);
        var rest := SyncAll(hash, next, manifest, order, i + 1, world);
        SyncAllIsSafe(hash, next, initial, manifest, order, i + 1, world);
        AllSafeConcat(hash, s.states, rest.states, initial, manifest);
        FinalOfConcat(fs, s.states, rest.states);
      }
    }
  }

  ghost predicate IsOrder(order: seq<string>, manifest: Manifest) {
    && (forall name :: name in order <==> name in manifest)
    && (forall i, j :: 0 <= i < j < |order| ==> order[i] != order[j])
  }

  /** What a sync of the manifest is for: stopped anywhere it has damaged no managed file, and if it
      finishes, all of them match. */
  ghost predicate Protects(hash: seq<byte> -> Utf8, fs: Files, manifest: Manifest, order: seq<string>,
                           world: string -> Attempt)
    requires IsOrder(order, manifest)
  {
    var s := SyncAll(hash, fs, manifest, order, 0, world);
    && AllSafe(hash, s.states, fs, manifest)
    && (s.outcome.Done? ==> AllMatch(hash, Final(fs, s.states), manifest))
  }

  lemma HarmlessProtects(hash: seq<byte> -> Utf8, fs: Files, manifest: Manifest, order: seq<string>,
                        world: string -> Attempt)
    requires IsOrder(order, manifest) && Harmless(hash, manifest)
    ensures Protects(hash, fs, manifest, order, world)
  {
    SyncAllIsSafe(hash, fs, fs, manifest, order, 0, world);
    var s := SyncAll(hash, fs, manifest, order, 0, world);
    if s.outcome.Done? {
      forall name | name in manifest ensures Matches(hash, Final(fs, s.states), name, manifest[name]) {
        assert name in order;
      }
    }
  }

  lemma {:induction false} OrderOf(names: set<string>) returns (order: seq<string>)
    ensures forall name :: name in order <==> name in names
    ensures forall i, j :: 0 <= i < j < |order| ==> order[i] != order[j]
    decreases |names|
  {
    if names == {} {
      order := [];
    } else {
      var first :| first in names;
      var rest := OrderOf(names - {first});
      order := [first] + rest;
    }
  }

  /** A directory in which the managed file with the name of a temporary file is there, and is moved away
      by the sync of the other one. */
  lemma FirstSyncDamages(hash: seq<byte> -> Utf8, manifest: Manifest, name: string, data: seq<byte>, world: Attempt)
    requires name in manifest && Tmp(name) in manifest && hash(data) == manifest[name].sha256
    requires world == Attempt(Some(data), Complete, true)
    ensures var fs := map[Tmp(name) := File([], true)];
            var s := Sync(hash, fs, name, manifest[name], world);
            s.outcome.Done? && s.states != [] && !Safe(hash, s.states[|s.states| - 1], fs, manifest)
  {
    var fs := map[Tmp(name) := File([], true)];
    TmpDiffers(name);
    CompleteWrite(fs, Tmp(name), data, Complete);
    RenamingIsDuring(hash, fs, name, manifest[name], data);
    var s := Sync(hash, fs, name, manifest[name], world);
    assert Tmp(name) !in s.states[|s.states| - 1];
  }

  /** A clash on a file that can be downloaded does damage: with that file first and one good download, the
      managed file under the temporary name is gone. */
  lemma ClashDamages(hash: seq<byte> -> Utf8, manifest: Manifest, name: string, data: seq<byte>)
      returns (order: seq<string>, world: string -> Attempt)
    requires name in manifest && Tmp(name) in manifest && hash(data) == manifest[name].sha256
    ensures IsOrder(order, manifest) && !Protects(hash, map[Tmp(name) := File([], true)], manifest, order, world)
  {
    var fs := map[Tmp(name) := File([], true)];
    world := (_: string) => Attempt(Some(data), Complete, true);
    var rest := OrderOf(manifest.Keys - {name});
    order := [name] + rest;
    FirstSyncDamages(hash, manifest, name, data, world(name));
    var first, s := Sync(hash, fs, name, manifest[name], world(name)), SyncAll(hash, fs, manifest, order, 0, world);
    assert s.states[|first.states| - 1] == first.states[|first.states| - 1];
  }

  /** In the other order the clash even loses a file: the one that is the temporary file of another is
      gone when both are synced. */
  lemma ClashLosesFile(hash: seq<byte> -> Utf8, fs: Files, name: string, entry: FileEntry, world: Attempt,
                       tmpEntry: FileEntry, tmpWorld: Attempt)
    requires !Matches(hash, fs, name, entry)
    ensures var first := Sync(hash, fs, Tmp(name), tmpEntry, tmpWorld);
            var second := Sync(hash, Final(fs, first.states), name, entry, world);
            first.outcome.Done? && second.outcome.Done? ==> Tmp(name) !in Final(Final(fs, first.states), second.states)
  {
    var first := Sync(hash, fs, Tmp(name), tmpEntry, tmpWorld);
    var mid := Final(fs, first.states);
    SyncIsGood(hash, fs, Tmp(name), tmpEntry, tmpWorld);
    SyncIsGood(hash, mid, name, entry, world);
    assert name != Tmp(name) && name != Tmp(Tmp(name)) by {
      assert |Tmp(name)| == |name| + 5 && |Tmp(Tmp(name))| == |name| + 10;
    }
    assert Same(mid, fs, name);
  }

  /** For the hash that the loader uses, whatever it is: the guarantee holds for every initial directory,
      order and world exactly when no file that can be downloaded has another managed file as its temporary
      file. */
  lemma ProtectsIffHarmless(hash: seq<byte> -> Utf8, manifest: Manifest)
    ensures (forall fs: Files, order: seq<string>, world: string -> Attempt ::
               IsOrder(order, manifest) ==> Protects(hash, fs, manifest, order, world))
            <==> Harmless(hash, manifest)
  {
    if Harmless(hash, manifest) {
      forall fs: Files, order: seq<string>, world: string -> Attempt | IsOrder(order, manifest)
        ensures Protects(hash, fs, manifest, order, world)
      {
        HarmlessProtects(hash, fs, manifest, order, world);
      }
    } else {
      var name :| name in manifest && Tmp(name) in manifest && Obtainable(hash, manifest[name].sha256);
      var data :| hash(data) == manifest[name].sha256;
      var order, world := ClashDamages(hash, manifest, name, data);
    }
  }

  // ---- The directory ----

  lemma RunIsSafe(hash: seq<byte> -> Utf8, fs: Files, manifest: Manifest, order: seq<string>, world: string -> Attempt)
    requires IsOrder(order, manifest) && Harmless(hash, manifest)
    ensures var s := SyncAll(hash, fs, manifest, order, 0, world);
            && AllSafe(hash, s.states, fs, manifest)
            && Safe(hash, Final(fs, s.states), fs, manifest)
            && (s.outcome.Done? ==> AllMatch(hash, Final(fs, s.states), manifest))
  {
    HarmlessProtects(hash, fs, manifest, order, world);
  }

  class Cache {
    var files: Files
    /** Every state the directory has been in. */
    ghost var trace: seq<Files>

    constructor (initial: Files)
      ensures files == initial && trace == [initial]
    {
      files, trace := initial, [initial];
    }

    method Write(name: string, data: seq<byte>, outcome: WriteOutcome) returns (ok: bool)
      modifies this
      ensures trace == old(trace) + WriteStates(old(files), name, data, outcome)
      ensures files == Final(old(files), WriteStates(old(files), name, data, outcome))
      ensures ok <==> Opens(old(files), name, outcome) && outcome.Complete?
    {
      ghost var states := WriteStates(files, name, data, outcome);
      if outcome.Refused? || IsDirectory(files, name) {
        ConcatEmpty(trace);
        return false;
      }
      var end := BytesWritten(data, outcome);
      files := files[name := File([], true)];
      trace := trace + [files];
      assert data[..0] == [] && states[..1] == [states[0]];
      for n := 0 to end
        invariant files == states[n] && trace == old(trace) + states[..n + 1]
      {
        files := files[name := File(data[..n + 1], true)];
        trace := trace + [files];
        assert old(files)[name := File(data[..n], true)][name := File(data[..n + 1], true)] == states[n + 1];
        assert states[..n + 2] == states[..n + 1] + [states[n + 1]];
        ConcatAssociates(old(trace), states[..n + 1], [states[n + 1]]);
      }
      assert states[..end + 1] == states;
      return outcome.Complete?;
    }

    method Rename(from: string, to: string, renames: bool) returns (ok: bool)
      requires from in files
      modifies this
      ensures trace == old(trace) + RenameStates(old(files), from, to, renames)
      ensures files == Final(old(files), RenameStates(old(files), from, to, renames))
      ensures ok <==> RenameStates(old(files), from, to, renames) != []
    {
      if !renames || IsDirectory(files, to) {
        ConcatEmpty(trace);
        return false;
      }
      files := (files - {from})[to := files[from]];
      trace := trace + [files];
      return true;
    }

    method SyncFile(hash: seq<byte> -> Utf8, name: string, entry: FileEntry, world: Attempt) returns (r: Outcome)
      modifies this
      ensures var s := Sync(hash, old(files), name, entry, world);
              && trace == old(trace) + s.states && files == Final(old(files), s.states) && r == s.outcome
              && GoodSync(hash, old(files), name, entry, s)
    {
      SyncIsGood(hash, files, name, entry, world);
      ConcatEmpty(trace);
      if name in files && files[name].File? && files[name].readable {
        if hash(files[name].bytes) == entry.sha256 {
          return Done;
        } else if !Abbreviable(entry.sha256) {
          return Panicked;
        }
      }
      if world.download.None? {
        return Failed;
      }
      var data := world.download.value;
      if hash(data) != entry.sha256 {
        return if Abbreviable(entry.sha256) then Failed else Panicked;
      }
      r := PlaceFile(name, data, world);
    }

    method PlaceFile(name: string, data: seq<byte>, world: Attempt) returns (r: Outcome)
      modifies this
      ensures var s := Place(old(files), name, data, world);
              trace == old(trace) + s.states && files == Final(old(files), s.states) && r == s.outcome
    {
      ghost var written := WriteStates(files, Tmp(name), data, world.write);
      var ok := Write(Tmp(name), data, world.write);
      if !ok {
        return Failed;
      }
      CompleteWrite(old(files), Tmp(name), data, world.write);
      ghost var renamed := RenameStates(files, Tmp(name), name, world.renames);
      ConcatEmpty(trace);
      ConcatAssociates(old(trace), written, renamed);
      var moved := Rename(Tmp(name), name, world.renames);
      return if moved then Done else Failed;
    }

    /** The files of the manifest, in the order in which its map yields them. */
    method SyncFiles(hash: seq<byte> -> Utf8, manifest: Manifest, order: seq<string>, world: string -> Attempt)
        returns (r: Outcome)
      requires forall name :: name in order ==> name in manifest
      modifies this
      ensures var s := SyncAll(hash, old(files), manifest, order, 0, world);
              trace == old(trace) + s.states && files == Final(old(files), s.states) && r == s.outcome
    {
      ghost var goal := SyncAll(hash, files, manifest, order, 0, world);
      ghost var passed: seq<Files> := [];
      ConcatEmpty(trace);
      ConcatEmpty(goal.states);
      for n := 0 to |order|
        invariant trace == old(trace) + passed && files == Final(old(files), passed)
        invariant var rest := SyncAll(hash, files, manifest, order, n, world);
                  goal == Synced(passed + rest.states, rest.outcome)
      {
        ghost var before := files;
        ghost var s := Sync(hash, files, order[n], manifest[order[n]], world(order[n]));
        r := SyncFile(hash, order[n], manifest[order[n]], world(order[n]));
        ConcatAssociates(old(trace), passed, s.states);
        FinalOfConcat(old(files), passed, s.states);
        if !r.Done? {
          return;
        }
        ConcatAssociates(passed, s.states, SyncAll(hash, files, manifest, order, n + 1, world).states);
        passed := passed + s.states;
      }
      ConcatEmpty(passed);
      r := Done;
    }

    /** Removes what is not listed. `listing` is the directory as it is read, if it can be read, and
        `removes` says which removals succeed. */
    method CleanStale(manifest: Manifest, listing: Option<seq<string>>, removes: string -> bool)
      requires listing.Some? ==> forall name :: name in listing.value <==> name in files
      modifies this
      ensures old(trace) <= trace
      ensures forall k :: |old(trace)| <= k < |trace| ==> Cleaning(trace[k], old(files), manifest)
      ensures Cleaning(files, old(files), manifest)
      ensures listing.Some? ==>
                forall name :: name in files ==> Kept(name, manifest) || !removes(name)
    {
      if listing.None? {
        return;
      }
      var entries := listing.value;
      for n := 0 to |entries|
        invariant old(trace) <= trace
        invariant forall k :: |old(trace)| <= k < |trace| ==> Cleaning(trace[k], old(files), manifest)
        invariant Cleaning(files, old(files), manifest)
        invariant forall i :: 0 <= i < n && entries[i] in files ==> Kept(entries[i], manifest) || !removes(entries[i])
      {
        var name := entries[n];
        if !Kept(name, manifest) && removes(name) {
          files := files - {name};
          trace := trace + [files];
        }
      }
      forall name | name in files ensures Kept(name, manifest) || !removes(name) {
        assert name in entries;
      }
    }

    /** A run of the loader up to the launch, over the manifest's files in any order. */
    method Run(hash: seq<byte> -> Utf8, manifest: Manifest, order: seq<string>, world: string -> Attempt,
               readable: bool, listing: Files -> seq<string>, removes: string -> bool)
        returns (r: Outcome)
      requires IsOrder(order, manifest)
      requires forall s :: forall name :: name in listing(s) <==> name in s
      modifies this
      ensures old(trace) + SyncAll(hash, old(files), manifest, order, 0, world).states <= trace
      ensures r == SyncAll(hash, old(files), manifest, order, 0, world).outcome
      ensures Harmless(hash, manifest) ==>
                forall k :: |old(trace)| <= k < |trace| ==> Safe(hash, trace[k], old(files), manifest)
      ensures Harmless(hash, manifest) && r.Done? ==> AllMatch(hash, files, manifest)
      ensures r.Done? && readable ==> forall name :: name in files ==> Kept(name, manifest) || !removes(name)
    {
      ghost var states := SyncAll(hash, files, manifest, order, 0, world).states;
      r := SyncFiles(hash, manifest, order, world);
      ghost var synced, past := files, trace;
      if Harmless(hash, manifest) {
        RunIsSafe(hash, old(files), manifest, order, world);
      }
      if !r.Done? {
        return;
      }
      CleanStale(manifest, if readable then Some(listing(files)) else None, removes);
      if Harmless(hash, manifest) {
        forall k | |past| <= k < |trace| ensures Safe(hash, trace[k], old(files), manifest) {
          SafeCleaning(hash, trace[k], synced, old(files), manifest);
        }
        SafeCleaning(hash, files, synced, old(files), manifest);
      }
    }
  }
}
