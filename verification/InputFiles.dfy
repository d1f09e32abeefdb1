/** Owned input files: a store of resumable uploads that are sealed, delivered, pinned by
    forks and retired, and the client loop that uploads into it. */
module InputFiles {
  import opened Base64
  import opened Options

  const FILE_MAX := 50 * 1024 * 1024
  const MAX_SELECTED := 100
  const STORE_MAX := FILE_MAX * MAX_SELECTED
  const MAX_FILES := 1024
  const MAX_OWNERS := 1024

  type FileId = string
  type Name = string

  /** Everything of a scope but its owner. */
  datatype Place = Place(provider: string, binding: string, workspace: string, cwd: string)

  datatype Scope = Scope(owner: Name, place: Place)

  datatype Description = Description(filename: string, mime: string, byteLength: nat, sha256: string)

  datatype File = File(
    id: FileId, place: Place, owners: seq<Name>, about: Description, sealed: bool, retained: bool, body: seq<Byte>)

  datatype State = Uploading | Sealed | Retained | Released

  datatype Error =
    | CommandConflict | Quota | Unavailable | IsRetained | ChunkInvalid | ChunkConflict | Integrity
    | DeliveryUnsupported | OwnerLimit

  datatype Result = Done(id: FileId, about: Description, received: nat, state: State) | Refused(error: Error)

  datatype Request =
    | Create(about: Description)
    | Append(id: FileId, offset: nat, data: string)
    | Seal(id: FileId)
    | Read(id: FileId)
    | Release(id: FileId)

  /** The digest of a file and the identity derived from a scope and a command. */
  datatype Hashes = Hashes(digest: seq<Byte> -> string, idOf: (Scope, string) -> FileId)

  // ---------- The entries ----------

  predicate Has(files: seq<File>, id: FileId) { exists i | 0 <= i < |files| :: files[i].id == id }

  function IndexOf(files: seq<File>, id: FileId): (i: nat)
    requires Has(files, id)
    ensures i < |files| && files[i].id == id
  {
    if files[0].id == id then 0
    else
      assert Has(files[1..], id) by {
        var i :| 0 <= i < |files| && files[i].id == id;
        assert files[1..][i - 1].id == id;
      }
      1 + IndexOf(files[1..], id)
  }

  function Get(files: seq<File>, id: FileId): (f: File)
    requires Has(files, id)
    ensures f.id == id && f in files
  {
    files[IndexOf(files, id)]
  }

  function Put(files: seq<File>, f: File): seq<File>
    requires Has(files, f.id)
  {
    files[IndexOf(files, f.id) := f]
  }

  function Removed(files: seq<File>, id: FileId): seq<File>
    requires Has(files, id)
  {
    var i := IndexOf(files, id);
    files[..i] + files[i + 1..]
  }

  function Declared(files: seq<File>): nat {
    if files == [] then 0 else files[0].about.byteLength + Declared(files[1..])
  }

  predicate Owns(f: File, scope: Scope) { scope.owner in f.owners && f.place == scope.place }

  function ResultOf(f: File): Result {
    Done(f.id, f.about, |f.body|, if f.retained then Retained else if f.sealed then Sealed else Uploading)
  }

  predicate HasRoom(files: seq<File>, incoming: nat) {
    incoming <= FILE_MAX && Declared(files) + incoming <= STORE_MAX && |files| <= MAX_FILES
  }

  // ---------- The operations ----------

  predicate RequestOk(request: Request) {
    match request
    case Create(about) => about.byteLength <= FILE_MAX
    case Append(_, _, data) => |data| >= 4 && |data| <= CHUNK_TEXT && IsLoose(data) && |data| / 4 * 3 - Padding(data) <= CHUNK_BYTES
    case _ => true
  }

  function NewFile(id: FileId, scope: Scope, about: Description): File {
    File(id, scope.place, [scope.owner], about, false, false, [])
  }

  function DoCreate(h: Hashes, files: seq<File>, scope: Scope, command: string, about: Description): (seq<File>, Result) {
    var id := h.idOf(scope, command);
    if Has(files, id) then
      var existing := Get(files, id);
      (files, if existing.about != about then Refused(CommandConflict) else ResultOf(existing))
    else if |files| >= MAX_FILES || !HasRoom(files, about.byteLength) then (files, Refused(Quota))
    else
      var f := NewFile(id, scope, about);
      (files + [f], ResultOf(f))
  }

  /** The bytes are already there, at that offset. */
  predicate IsRepeat(f: File, offset: nat, bytes: seq<Byte>) {
    offset + |bytes| <= |f.body| && f.body[offset..offset + |bytes|] == bytes
  }

  function DoAppend(files: seq<File>, f: File, offset: nat, data: string): (seq<File>, Result)
    requires Has(files, f.id) && IsLoose(data)
  {
    var bytes := Decode(data);
    if bytes == [] || |bytes| > CHUNK_BYTES || Encode(bytes) != data then (files, Refused(ChunkInvalid))
    else if IsRepeat(f, offset, bytes) then (files, ResultOf(f))
    else if f.sealed || offset != |f.body| || |f.body| + |bytes| > f.about.byteLength then (files, Refused(ChunkConflict))
    else
      var grown := f.(body := f.body + bytes);
      (Put(files, grown), ResultOf(grown))
  }

  function DoSeal(h: Hashes, files: seq<File>, f: File): (seq<File>, Result)
    requires Has(files, f.id)
  {
    if |f.body| != f.about.byteLength || h.digest(f.body) != f.about.sha256 then (files, Refused(Integrity))
    else
      var sealed := f.(sealed := true);
      (Put(files, sealed), ResultOf(sealed))
  }

  function Operation(h: Hashes, files: seq<File>, scope: Scope, command: string, request: Request): (seq<File>, Result)
    requires RequestOk(request)
  {
    if request.Create? then DoCreate(h, files, scope, command, request.about)
    else if !Has(files, request.id) || !Owns(Get(files, request.id), scope) then (files, Refused(Unavailable))
    else
      var f := Get(files, request.id);
      match request
      case Read(_) => (files, ResultOf(f))
      case Release(_) =>
        if f.retained then (files, Refused(IsRetained)) else (Removed(files, f.id), Done(f.id, f.about, 0, Released))
      case Append(_, offset, data) => DoAppend(files, f, offset, data)
      case Seal(_) => DoSeal(h, files, f)
  }

  datatype Selected = Selected(id: FileId, about: Description, fileContext: bool)

  predicate MayDeliver(h: Hashes, files: seq<File>, scope: Scope, s: Selected) {
    Has(files, s.id) && var f := Get(files, s.id);
      Owns(f, scope) && f.sealed && f.about == s.about && |f.body| == f.about.byteLength && h.digest(f.body) == f.about.sha256
  }

  /** Marks the selected files delivered, one after the other. */
  function Retain(files: seq<File>, selected: seq<Selected>): (after: seq<File>)
    requires forall s | s in selected :: Has(files, s.id)
    decreases |selected|
  {
    if selected == [] then files
    else
      var next := Put(files, Get(files, selected[0].id).(retained := true));
      PutKeepsIds(files, Get(files, selected[0].id).(retained := true));
      Retain(next, selected[1..])
  }

  lemma PutKeepsIds(files: seq<File>, f: File)
    requires Has(files, f.id)
    ensures |Put(files, f)| == |files| && forall i | 0 <= i < |files| :: Put(files, f)[i].id == files[i].id
    ensures forall id :: Has(Put(files, f), id) <==> Has(files, id)
  {
    forall id | Has(files, id) ensures Has(Put(files, f), id) {
      var i :| 0 <= i < |files| && files[i].id == id;
      assert Put(files, f)[i].id == id;
    }
    forall id | Has(Put(files, f), id) ensures Has(files, id) {
      var i :| 0 <= i < |files| && Put(files, f)[i].id == id;
      assert files[i].id == id;
    }
  }

  function Materialize(h: Hashes, files: seq<File>, scope: Scope, selected: seq<Selected>): (seq<File>, Option<Error>) {
    if |selected| > MAX_SELECTED || exists s :: s in selected && !s.fileContext then (files, Some(DeliveryUnsupported))
    else if exists s :: s in selected && !MayDeliver(h, files, scope, s) then (files, Some(Unavailable))
    else (Retain(files, selected), None)
  }

  function WithoutOwner(owners: seq<Name>, owner: Name): seq<Name> {
    if owners == [] then [] else (if owners[0] == owner then [] else [owners[0]]) + WithoutOwner(owners[1..], owner)
  }

  /** A conversation gives its files up; those nobody else owns are deleted. */
  function Retire(files: seq<File>, scope: Scope): seq<File> {
    if files == [] then [] else Left(files[0], scope) + Retire(files[1..], scope)
  }

  function Left(f: File, scope: Scope): seq<File> {
    if !Owns(f, scope) then [f]
    else
      var remaining := WithoutOwner(f.owners, scope.owner);
      if remaining != [] then [f.(owners := remaining)] else []
  }

  predicate ForkPins(f: File, scope: Scope, target: Name) { f.retained && Owns(f, scope) && target !in f.owners }

  /** Pins delivered files for the fork, up to the first whose owners are at their limit. */
  function Fork(files: seq<File>, scope: Scope, target: Name): (seq<File>, Option<Error>) {
    if files == [] then ([], None)
    else if ForkPins(files[0], scope, target) && |files[0].owners| >= MAX_OWNERS then (files, Some(OwnerLimit))
    else
      var f := if ForkPins(files[0], scope, target) then files[0].(owners := files[0].owners + [target]) else files[0];
      var (rest, error) := Fork(files[1..], scope, target);
      ([f] + rest, error)
  }

  // ---------- Runs ----------

  datatype Action =
    | DoOperation(scope: Scope, command: string, request: Request)
    | DoMaterialize(scope: Scope, selected: seq<Selected>)
    | DoRetire(scope: Scope)
    | DoFork(scope: Scope, target: Name)

  function Step(h: Hashes, files: seq<File>, a: Action): seq<File> {
    match a
    case DoOperation(scope, command, request) => if RequestOk(request) then Operation(h, files, scope, command, request).0 else files
    case DoMaterialize(scope, selected) => Materialize(h, files, scope, selected).0
    case DoRetire(scope) => Retire(files, scope)
    case DoFork(scope, target) => Fork(files, scope, target).0
  }

  function Run(h: Hashes, files: seq<File>, actions: seq<Action>): seq<File>
    decreases |actions|
  {
    if actions == [] then files else Step(h, Run(h, files, actions[..|actions| - 1]), actions[|actions| - 1])
  }

  // ---------- What every run keeps ----------

  predicate FileOk(h: Hashes, f: File) {
    && f.about.byteLength <= FILE_MAX && |f.body| <= f.about.byteLength && f.owners != []
    && (f.sealed ==> |f.body| == f.about.byteLength && h.digest(f.body) == f.about.sha256)
    && (f.retained ==> f.sealed)
  }

  predicate DistinctIds(files: seq<File>) { forall i, j | 0 <= i < j < |files| :: files[i].id != files[j].id }

  ghost predicate Inv(h: Hashes, files: seq<File>) {
    && DistinctIds(files) && (forall i | 0 <= i < |files| :: FileOk(h, files[i]))
    && Declared(files) <= STORE_MAX && |files| <= MAX_FILES
  }

  /** How one file may change while it lives: the body grows until sealed, nothing is taken
      back, and neither what was declared nor where it belongs changes. */
  predicate Evolves(f: File, g: File) {
    && g.id == f.id && g.place == f.place && g.about == f.about && f.body <= g.body
    && (f.sealed ==> g.sealed && g.body == f.body) && (f.retained ==> g.retained)
  }

  /** Every later file is an earlier one evolved, or has an id that was free. */
  ghost predicate Traces(files: seq<File>, after: seq<File>) {
    forall g | g in after :: IsNew(files, g) || HasSource(files, g)
  }

  predicate IsNew(files: seq<File>, g: File) { !Has(files, g.id) }

  ghost predicate HasSource(files: seq<File>, g: File) { exists f :: f in files && Evolves(f, g) }

  lemma TracedFilesEvolve(files: seq<File>, after: seq<File>, id: FileId)
    requires DistinctIds(files) && Traces(files, after) && Has(files, id) && Has(after, id)
    ensures Evolves(Get(files, id), Get(after, id))
  {
    var g := Get(after, id);
    assert !IsNew(files, g) && HasSource(files, g);
    var f :| f in files && Evolves(f, g);
  }

  lemma TracesItself(files: seq<File>)
    ensures Traces(files, files)
  {
    forall g | g in files ensures HasSource(files, g) { assert Evolves(g, g); }
  }

  lemma {:induction false} DeclaredAt(files: seq<File>, i: nat, f: File)
    requires i < |files|
    ensures Declared(files[i := f]) == Declared(files) - files[i].about.byteLength + f.about.byteLength
    ensures Declared(files[..i] + files[i + 1..]) == Declared(files) - files[i].about.byteLength
  {
    if i == 0 {
      assert files[0 := f][1..] == files[1..] && files[..0] + files[1..] == files[1..];
    } else {
      DeclaredAt(files[1..], i - 1, f);
      assert files[i := f][1..] == files[1..][i - 1 := f];
      assert (files[..i] + files[i + 1..])[1..] == files[1..][..i - 1] + files[1..][i..];
    }
  }

  lemma {:induction false} DeclaredAppend(files: seq<File>, f: File)
    ensures Declared(files + [f]) == Declared(files) + f.about.byteLength
  {
    if files == [] {
      assert files + [f] == [f];
    } else {
      assert (files + [f])[1..] == files[1..] + [f];
      DeclaredAppend(files[1..], f);
    }
  }

  lemma PutKeeps(h: Hashes, files: seq<File>, f: File)
    requires Inv(h, files) && Has(files, f.id) && FileOk(h, f) && Evolves(Get(files, f.id), f)
    ensures Inv(h, Put(files, f)) && Traces(files, Put(files, f))
  {
    DeclaredAt(files, IndexOf(files, f.id), f);
    PutKeepsIds(files, f);
    forall g | g in Put(files, f) ensures HasSource(files, g) {
      if g != f { assert g in files && Evolves(g, g); }
    }
  }

  lemma AddKeeps(h: Hashes, files: seq<File>, f: File)
    requires Inv(h, files) && !Has(files, f.id) && FileOk(h, f) && HasRoom(files, f.about.byteLength) && |files| < MAX_FILES
    ensures Inv(h, files + [f]) && Traces(files, files + [f])
  {
    DeclaredAppend(files, f);
    forall g | g in files + [f] && !IsNew(files, g) ensures HasSource(files, g) { assert Evolves(g, g); }
  }

  lemma RemovedMembers(files: seq<File>, id: FileId)
    requires DistinctIds(files) && Has(files, id)
    ensures forall other :: Has(Removed(files, id), other) <==> Has(files, other) && other != id
  {
    var i, left := IndexOf(files, id), Removed(files, id);
    forall other | Has(files, other) && other != id ensures Has(left, other) {
      var j :| 0 <= j < |files| && files[j].id == other;
      assert left[if j < i then j else j - 1].id == other;
    }
    forall other | Has(left, other) ensures Has(files, other) && other != id {
      var j :| 0 <= j < |left| && left[j].id == other;
      assert left[j] == files[if j < i then j else j + 1];
    }
  }

  lemma RemovedSource(files: seq<File>, id: FileId)
    requires DistinctIds(files) && Has(files, id)
    ensures DistinctIds(Removed(files, id)) && Traces(files, Removed(files, id))
    ensures forall g | g in Removed(files, id) :: g in files
  {
    forall g | g in Removed(files, id) ensures g in files && HasSource(files, g) { assert Evolves(g, g); }
  }

  lemma RemoveKeeps(h: Hashes, files: seq<File>, id: FileId)
    requires Inv(h, files) && Has(files, id)
    ensures Inv(h, Removed(files, id)) && Traces(files, Removed(files, id))
  {
    DeclaredAt(files, IndexOf(files, id), Get(files, id));
    RemovedSource(files, id);
    hide Traces, FileOk;
    assert forall i | 0 <= i < |Removed(files, id)| :: Removed(files, id)[i] in Removed(files, id);
  }

  lemma AppendKeeps(h: Hashes, files: seq<File>, f: File, offset: nat, data: string)
    requires Inv(h, files) && f in files && Has(files, f.id) && IsLoose(data)
    ensures Inv(h, DoAppend(files, f, offset, data).0) && Traces(files, DoAppend(files, f, offset, data).0)
  {
    hide Inv, Traces, IsLoose, Encode, Decode;
    TracesItself(files);
    var bytes := Decode(data);
    if !f.sealed && offset == |f.body| && |f.body| + |bytes| <= f.about.byteLength {
      GrowKeeps(h, files, f, bytes);
    }
  }

  lemma GrowKeeps(h: Hashes, files: seq<File>, f: File, bytes: seq<Byte>)
    requires Inv(h, files) && f in files && Has(files, f.id) && !f.sealed && |f.body| + |bytes| <= f.about.byteLength
    ensures Inv(h, Put(files, f.(body := f.body + bytes))) && Traces(files, Put(files, f.(body := f.body + bytes)))
  {
    MemberOk(h, files, f);
    hide Inv, Traces;
    PutKeeps(h, files, f.(body := f.body + bytes));
  }

  lemma MemberOk(h: Hashes, files: seq<File>, f: File)
    requires Inv(h, files) && f in files
    ensures FileOk(h, f)
  {}

  lemma SealKeeps(h: Hashes, files: seq<File>, f: File)
    requires Inv(h, files) && f in files && Has(files, f.id)
    ensures Inv(h, DoSeal(h, files, f).0) && Traces(files, DoSeal(h, files, f).0)
  {
    TracesItself(files);
    MemberOk(h, files, f);
    hide Inv, Traces;
    if |f.body| == f.about.byteLength && h.digest(f.body) == f.about.sha256 { PutKeeps(h, files, f.(sealed := true)); }
  }

  lemma OperationKeeps(h: Hashes, files: seq<File>, scope: Scope, command: string, request: Request)
    requires Inv(h, files) && RequestOk(request)
    ensures Inv(h, Operation(h, files, scope, command, request).0) && Traces(files, Operation(h, files, scope, command, request).0)
  {
    hide Inv, Traces, FileOk, HasRoom, Declared;
    TracesItself(files);
    match request
    case Create(about) => CreateKeeps(h, files, scope, command, about);
    case Append(id, offset, data) => if Has(files, id) { AppendKeeps(h, files, Get(files, id), offset, data); }
    case Seal(id) => if Has(files, id) { SealKeeps(h, files, Get(files, id)); }
    case Read(_) =>
    case Release(id) => if Has(files, id) { RemoveKeeps(h, files, id); }
  }

  lemma CreateKeeps(h: Hashes, files: seq<File>, scope: Scope, command: string, about: Description)
    requires Inv(h, files) && about.byteLength <= FILE_MAX
    ensures Inv(h, DoCreate(h, files, scope, command, about).0) && Traces(files, DoCreate(h, files, scope, command, about).0)
  {
    TracesItself(files);
    var id := h.idOf(scope, command);
    if !Has(files, id) && |files| < MAX_FILES && HasRoom(files, about.byteLength) {
      AddKeeps(h, files, NewFile(id, scope, about));
    }
  }

  lemma {:induction false} RetainKeeps(h: Hashes, files: seq<File>, selected: seq<Selected>)
    requires Inv(h, files) && forall s | s in selected :: Has(files, s.id) && Get(files, s.id).sealed
    ensures Inv(h, Retain(files, selected)) && Traces(files, Retain(files, selected))
    ensures forall id :: Has(Retain(files, selected), id) <==> Has(files, id)
    decreases |selected|
  {
    TracesItself(files);
    if selected != [] {
      var f := Get(files, selected[0].id).(retained := true);
      MemberOk(h, files, Get(files, selected[0].id));
      hide Inv, Traces;
      PutKeeps(h, files, f);
      PutKeepsIds(files, f);
      var next := Put(files, f);
      StaySealed(h, files, next, selected[1..]);
      RetainKeeps(h, next, selected[1..]);
    }
  }

  lemma StaySealed(h: Hashes, files: seq<File>, next: seq<File>, selected: seq<Selected>)
    requires Inv(h, files) && Traces(files, next) && forall id :: Has(next, id) <==> Has(files, id)
    requires forall s | s in selected :: Has(files, s.id) && Get(files, s.id).sealed
    ensures forall s | s in selected :: Has(next, s.id) && Get(next, s.id).sealed
  {
    forall s | s in selected ensures Has(next, s.id) && Get(next, s.id).sealed {
      TracedFilesEvolve(files, next, s.id);
    }
  }

  lemma {:induction false} OwnersLeft(owners: seq<Name>, owner: Name)
    ensures forall other :: other in WithoutOwner(owners, owner) <==> other in owners && other != owner
  {
    if owners != [] {
      OwnersLeft(owners[1..], owner);
      assert owners == [owners[0]] + owners[1..];
    }
  }

  /** What retirement leaves: the same files, less one owner, and without those left alone. */
  lemma {:induction false} RetireKeeps(h: Hashes, files: seq<File>, scope: Scope)
    requires DistinctIds(files) && forall i | 0 <= i < |files| :: FileOk(h, files[i])
    ensures var after := Retire(files, scope);
            && DistinctIds(after) && (forall g | g in after :: FileOk(h, g) && HasSource(files, g))
            && Declared(after) <= Declared(files) && |after| <= |files|
  {
    hide WithoutOwner, FileOk, Left;
    if files != [] {
      var f, rest := files[0], Retire(files[1..], scope);
      RetireKeeps(h, files[1..], scope);
      forall r | r in rest ensures HasSource(files, r) && r.id != f.id {
        var e :| e in files[1..] && Evolves(e, r);
        assert e in files;
      }
      var left := Left(f, scope);
      if left == [] {
        assert left + rest == rest;
      } else {
        LeftEvolves(h, files, scope);
        assert left + rest == [left[0]] + rest;
      }
    }
  }

  lemma LeftEvolves(h: Hashes, files: seq<File>, scope: Scope)
    requires files != [] && FileOk(h, files[0]) && Left(files[0], scope) != []
    ensures var left := Left(files[0], scope);
            left == [left[0]] && FileOk(h, left[0]) && HasSource(files, left[0]) && left[0].id == files[0].id
            && left[0].about == files[0].about
  {
    assert Evolves(files[0], Left(files[0], scope)[0]);
  }

  lemma {:induction false} ForkKeeps(h: Hashes, files: seq<File>, scope: Scope, target: Name)
    ensures var after := Fork(files, scope, target).0;
            && |after| == |files| && Declared(after) == Declared(files)
            && forall i | 0 <= i < |files| :: Evolves(files[i], after[i]) && (FileOk(h, files[i]) ==> FileOk(h, after[i]))
                                              && files[i].owners <= after[i].owners
  {
    if files != [] {
      ForkKeeps(h, files[1..], scope, target);
    }
  }

  lemma StepKeeps(h: Hashes, files: seq<File>, a: Action)
    requires Inv(h, files)
    ensures Inv(h, Step(h, files, a)) && Traces(files, Step(h, files, a))
  {
    match a
    case DoOperation(scope, command, request) =>
      TracesItself(files);
      if RequestOk(request) { OperationKeeps(h, files, scope, command, request); }
    case DoMaterialize(scope, selected) =>
      TracesItself(files);
      if Materialize(h, files, scope, selected).1.None? { DeliveredKeeps(h, files, scope, selected); }
    case DoRetire(scope) => RetireKeeps(h, files, scope);
      assert forall i | 0 <= i < |Retire(files, scope)| :: Retire(files, scope)[i] in Retire(files, scope);
    case DoFork(scope, target) =>
      ForkKeeps(h, files, scope, target);
  }

  lemma DeliveredKeeps(h: Hashes, files: seq<File>, scope: Scope, selected: seq<Selected>)
    requires Inv(h, files) && Materialize(h, files, scope, selected).1.None?
    ensures Inv(h, Materialize(h, files, scope, selected).0) && Traces(files, Materialize(h, files, scope, selected).0)
  {
    forall s | s in selected ensures Has(files, s.id) && Get(files, s.id).sealed { assert MayDeliver(h, files, scope, s); }
    hide Inv, Traces;
    RetainKeeps(h, files, selected);
  }

  lemma {:induction false} RunKeeps(h: Hashes, actions: seq<Action>)
    ensures Inv(h, Run(h, [], actions))
    decreases |actions|
  {
    if actions != [] {
      RunKeeps(h, actions[..|actions| - 1]);
      StepKeeps(h, Run(h, [], actions[..|actions| - 1]), actions[|actions| - 1]);
    }
  }

  // ---------- What holds of every run ----------

  /** In every reachable store: a sealed file has its declared length and digest, a delivered
      file is sealed, nothing exceeds its declared length, and the declared lengths together
      stay within the store's bound. */
  lemma EveryRunKeepsTheBounds(h: Hashes, actions: seq<Action>, id: FileId)
    requires Has(Run(h, [], actions), id)
    ensures var files := Run(h, [], actions);
            var f := Get(files, id);
            && Declared(files) <= STORE_MAX && |files| <= MAX_FILES
            && |f.body| <= f.about.byteLength <= FILE_MAX && f.owners != []
            && (f.sealed ==> |f.body| == f.about.byteLength && h.digest(f.body) == f.about.sha256)
            && (f.retained ==> f.sealed)
  {
    RunKeeps(h, actions);
    MemberOk(h, Run(h, [], actions), Get(Run(h, [], actions), id));
  }

  ghost predicate LivesThrough(h: Hashes, files: seq<File>, actions: seq<Action>, id: FileId) {
    forall n | 0 <= n <= |actions| :: Has(Run(h, files, actions[..n]), id)
  }

  /** While a file lives its body only grows, and once sealed it stays as it is. */
  lemma {:induction false} LivingFilesEvolve(h: Hashes, files: seq<File>, actions: seq<Action>, id: FileId)
    requires Inv(h, files) && LivesThrough(h, files, actions, id)
    ensures Inv(h, Run(h, files, actions)) && Has(files, id) && Has(Run(h, files, actions), id)
    ensures Evolves(Get(files, id), Get(Run(h, files, actions), id))
    decreases |actions|
  {
    assert actions[..|actions|] == actions && actions[..0] == [];
    assert Has(Run(h, files, actions[..0]), id) && Has(Run(h, files, actions[..|actions|]), id);
    if actions != [] {
      var earlier := actions[..|actions| - 1];
      EarlierLives(h, files, actions, id);
      LivingFilesEvolve(h, files, earlier, id);
      StepKeeps(h, Run(h, files, earlier), actions[|actions| - 1]);
      TracedFilesEvolve(Run(h, files, earlier), Run(h, files, actions), id);
    }
  }

  lemma EarlierLives(h: Hashes, files: seq<File>, actions: seq<Action>, id: FileId)
    requires LivesThrough(h, files, actions, id) && actions != []
    ensures LivesThrough(h, files, actions[..|actions| - 1], id)
  {
    var earlier := actions[..|actions| - 1];
    forall n | 0 <= n <= |earlier| ensures Has(Run(h, files, earlier[..n]), id) {
      assert earlier[..n] == actions[..n];
    }
  }

  /** An append that was accepted once is accepted again, without any change, for as long as
      the file lives and the scope owns it: after later parts, and after sealing. */
  lemma AcceptedAppendReplays(h: Hashes, files: seq<File>, scope: Scope, command: string, id: FileId, offset: nat, data: string,
                              actions: seq<Action>, again: string)
    requires Inv(h, files) && RequestOk(Append(id, offset, data))
    requires Operation(h, files, scope, command, Append(id, offset, data)).1.Done?
    requires LivesThrough(h, Operation(h, files, scope, command, Append(id, offset, data)).0, actions, id)
    requires var after := Run(h, Operation(h, files, scope, command, Append(id, offset, data)).0, actions);
             Has(after, id) && Owns(Get(after, id), scope)
    ensures var after := Run(h, Operation(h, files, scope, command, Append(id, offset, data)).0, actions);
            Operation(h, after, scope, again, Append(id, offset, data)) == (after, ResultOf(Get(after, id)))
  {
    hide DoCreate, Encode, Fork, Step, Decode, Retain, Materialize, Inv;
    var next := Operation(h, files, scope, command, Append(id, offset, data)).0;
    var after := Run(h, next, actions);
    OperationKeeps(h, files, scope, command, Append(id, offset, data));
    LivingFilesEvolve(h, next, actions, id);
    AcceptedAppendIsThere(h, files, Get(files, id), offset, data);
  }

  lemma AcceptedAppendIsThere(h: Hashes, files: seq<File>, f: File, offset: nat, data: string)
    requires Inv(h, files) && f in files && Has(files, f.id) && IsLoose(data) && DoAppend(files, f, offset, data).1.Done?
    ensures var next := DoAppend(files, f, offset, data).0;
            && Has(next, f.id) && IsRepeat(Get(next, f.id), offset, Decode(data))
            && Decode(data) != [] && |Decode(data)| <= CHUNK_BYTES && Encode(Decode(data)) == data
  {
    hide IsLoose, Decode, Encode, Declared;
    var bytes := Decode(data);
    if !IsRepeat(f, offset, bytes) {
      var grown := f.(body := f.body + bytes);
      PutKeepsIds(files, f);
      GetOfPut(files, grown);
    }
  }

  lemma GetOfPut(files: seq<File>, f: File)
    requires DistinctIds(files) && Has(files, f.id)
    ensures Has(Put(files, f), f.id) && Get(Put(files, f), f.id) == f
  {
    PutKeepsIds(files, f);
  }

  // ---------- What makes a file disappear ----------

  predicate ReleasesUnused(f: File, a: Action) {
    a.DoOperation? && a.request.Release? && a.request.id == f.id && Owns(f, a.scope) && !f.retained
  }

  predicate RetiresLastOwner(f: File, a: Action) {
    a.DoRetire? && Owns(f, a.scope) && forall owner | owner in f.owners :: owner == a.scope.owner
  }

  lemma {:induction false} RetireDrops(files: seq<File>, scope: Scope, f: File)
    requires DistinctIds(files) && f in files && !RetiresLastOwner(f, DoRetire(scope))
    ensures exists g :: g in Retire(files, scope) && Evolves(f, g) && (forall owner | owner in f.owners && owner != scope.owner :: owner in g.owners)
  {
    if files[0] == f {
      OwnersLeft(f.owners, scope.owner);
      if Owns(f, scope) {
        var other :| other in f.owners && other != scope.owner;
        assert other in WithoutOwner(f.owners, scope.owner);
        var g := f.(owners := WithoutOwner(f.owners, scope.owner));
        assert g in Retire(files, scope) && Evolves(f, g);
      } else {
        assert f in Retire(files, scope) && Evolves(f, f);
      }
    } else {
      assert f in files[1..];
      RetireDrops(files[1..], scope, f);
      var g :| g in Retire(files[1..], scope) && Evolves(f, g) && (forall owner | owner in f.owners && owner != scope.owner :: owner in g.owners);
      assert g in Retire(files, scope);
    }
  }

  /** A file disappears only when an owner releases it before delivery, or when the last
      conversation that owns it retires: delivery survives release, and a fork's pin
      survives the retirement of the conversation it came from. */
  lemma OnlyReleaseOrLastRetirementDeletes(h: Hashes, files: seq<File>, a: Action, f: File)
    requires Inv(h, files) && f in files && !ReleasesUnused(f, a) && !RetiresLastOwner(f, a)
    ensures Has(Step(h, files, a), f.id)
  {
    match a
    case DoOperation(scope, command, request) => if RequestOk(request) { OperationKeepsFile(h, files, scope, command, request, f); }
    case DoMaterialize(scope, selected) =>
      if Materialize(h, files, scope, selected).1.None? {
        forall s | s in selected ensures Has(files, s.id) && Get(files, s.id).sealed { assert MayDeliver(h, files, scope, s); }
        RetainKeeps(h, files, selected);
      }
    case DoRetire(scope) =>
      RetireDrops(files, scope, f);
      var g :| g in Retire(files, scope) && Evolves(f, g);
    case DoFork(scope, target) =>
      ForkKeeps(h, files, scope, target);
      var i :| 0 <= i < |files| && files[i] == f;
      assert Fork(files, scope, target).0[i].id == f.id;
  }

  lemma OperationKeepsFile(h: Hashes, files: seq<File>, scope: Scope, command: string, request: Request, f: File)
    requires Inv(h, files) && RequestOk(request) && f in files && !ReleasesUnused(f, DoOperation(scope, command, request))
    ensures Has(Operation(h, files, scope, command, request).0, f.id)
  {
    hide IsLoose, Decode, Encode, Declared, HasRoom, FileOk, IndexOf;
    match request
    case Create(about) =>
      var i :| 0 <= i < |files| && files[i] == f;
      var after := DoCreate(h, files, scope, command, about).0;
      assert after[i].id == f.id;
    case Append(id, offset, data) =>
      if Has(files, id) { PutKeepsIds(files, Get(files, id).(body := Get(files, id).body + Decode(data))); }
    case Seal(id) => if Has(files, id) { PutKeepsIds(files, Get(files, id).(sealed := true)); }
    case Read(_) =>
    case Release(id) => if Has(files, id) { RemovedMembers(files, id); }
  }

  // ---------- What the operations achieve ----------

  /** The file an id stands for. */
  function Held(files: seq<File>, id: FileId): Option<File> { if Has(files, id) then Some(Get(files, id)) else None }

  /** Only what one id stands for changes. */
  ghost predicate Becomes(files: seq<File>, after: seq<File>, id: FileId, f: Option<File>) {
    forall other :: Held(after, other) == if other == id then f else Held(files, other)
  }

  lemma HeldAt(files: seq<File>, i: nat)
    requires DistinctIds(files) && i < |files|
    ensures Held(files, files[i].id) == Some(files[i])
  {
    assert Has(files, files[i].id);
  }

  /** What two lists hold is the same where they list the same file under an id. */
  lemma HeldIs(files: seq<File>, id: FileId, f: File)
    requires DistinctIds(files)
    ensures Held(files, id) == Some(f) <==> f in files && f.id == id
  {
    if f in files && f.id == id {
      var i :| 0 <= i < |files| && files[i] == f;
      HeldAt(files, i);
    }
  }

  lemma HeldOfPut(files: seq<File>, f: File)
    requires DistinctIds(files) && Has(files, f.id)
    ensures Becomes(files, Put(files, f), f.id, Some(f)) && DistinctIds(Put(files, f))
  {
    PutKeepsIds(files, f);
    forall other ensures Held(Put(files, f), other) == if other == f.id then Some(f) else Held(files, other) {
      if Has(files, other) {
        HeldAt(Put(files, f), IndexOf(files, other));
      }
    }
  }

  lemma HeldOfAdded(files: seq<File>, f: File)
    requires DistinctIds(files) && !Has(files, f.id)
    ensures Becomes(files, files + [f], f.id, Some(f))
  {
    var after := files + [f];
    forall other ensures Held(after, other) == if other == f.id then Some(f) else Held(files, other) {
      if other == f.id {
        HeldAt(after, |files|);
      } else if Has(files, other) {
        HeldAt(after, IndexOf(files, other));
      }
    }
  }

  lemma HeldOfRemoved(files: seq<File>, id: FileId)
    requires DistinctIds(files) && Has(files, id)
    ensures Becomes(files, Removed(files, id), id, None)
  {
    var i, left := IndexOf(files, id), Removed(files, id);
    RemovedMembers(files, id);
    RemovedSource(files, id);
    forall other ensures Held(left, other) == if other == id then None else Held(files, other) {
      if other != id && Has(files, other) {
        var j := IndexOf(files, other);
        HeldAt(left, if j < i then j else j - 1);
      }
    }
  }

  /** Creating succeeds when the command created the same file before, and is then only repeated;
      or when the command is new and the store has room, and then the file is there, empty. */
  lemma CreatesAreTaken(h: Hashes, files: seq<File>, scope: Scope, command: string, about: Description)
    requires Inv(h, files) && about.byteLength <= FILE_MAX
    ensures var (after, result) := Operation(h, files, scope, command, Create(about));
            var id, held := h.idOf(scope, command), Held(files, h.idOf(scope, command));
            var made := File(id, scope.place, [scope.owner], about, false, false, []);
            && (result.Done? <==> if held.Some? then held.value.about == about
                                  else |files| < MAX_FILES && Declared(files) + about.byteLength <= STORE_MAX)
            && (result.Done? ==> Becomes(files, after, id, Some(if held.Some? then held.value else made)))
            && (result.Done? && held.None? ==> result == Done(id, about, 0, Uploading))
            && (result.Refused? ==> after == files && result.error == if held.Some? then CommandConflict else Quota)
  {
    hide Inv, Declared, IndexOf;
    InvIsDistinct(h, files);
    FewFiles(h, files);
    var f := NewFile(h.idOf(scope, command), scope, about);
    if !Has(files, f.id) { HeldOfAdded(files, f); }
  }

  lemma FewFiles(h: Hashes, files: seq<File>)
    requires Inv(h, files)
    ensures |files| <= MAX_FILES
  {}

  /** A chunk is taken exactly when its bytes are at their offset already, or extend an unsealed
      file at its end within what was declared; then they are there. */
  lemma AppendsAreTaken(h: Hashes, files: seq<File>, scope: Scope, command: string, f: File, offset: nat, bytes: seq<Byte>)
    requires Inv(h, files) && f in files && scope.owner in f.owners && f.place == scope.place && bytes != [] && |bytes| <= CHUNK_BYTES
    ensures RequestOk(Append(f.id, offset, Encode(bytes)))
    ensures var (after, result) := Operation(h, files, scope, command, Append(f.id, offset, Encode(bytes)));
            var there := offset + |bytes| <= |f.body| && f.body[offset..offset + |bytes|] == bytes;
            var grows := !f.sealed && offset == |f.body| && |f.body| + |bytes| <= f.about.byteLength;
            && (result.Done? <==> there || grows)
            && (result.Done? ==> Becomes(files, after, f.id, Some(if there then f else f.(body := f.body + bytes))))
            && (result.Done? ==> result.received == if there then |f.body| else offset + |bytes|)
            && (result.Refused? ==> after == files && result.error == ChunkConflict)
  {
    hide Inv, IsLoose, Encode, Decode, Padding, IndexOf;
    PartIsWellFormed(bytes);
    InvIsDistinct(h, files);
    HeldIs(files, f.id, f);
    HeldOfPut(files, f.(body := f.body + bytes));
  }

  /** Sealing succeeds exactly when the body has the declared length and digest. */
  lemma SealsAreTaken(h: Hashes, files: seq<File>, scope: Scope, command: string, f: File)
    requires Inv(h, files) && f in files && scope.owner in f.owners && f.place == scope.place
    ensures var (after, result) := Operation(h, files, scope, command, Seal(f.id));
            && (result.Done? <==> |f.body| == f.about.byteLength && h.digest(f.body) == f.about.sha256)
            && (result.Done? ==> Becomes(files, after, f.id, Some(f.(sealed := true))))
            && (result.Refused? ==> after == files && result.error == Integrity)
  {
    hide Inv, IndexOf;
    InvIsDistinct(h, files);
    HeldIs(files, f.id, f);
    HeldOfPut(files, f.(sealed := true));
  }

  /** Releasing succeeds exactly for a file that was not delivered, and then it is gone. */
  lemma ReleasesAreTaken(h: Hashes, files: seq<File>, scope: Scope, command: string, f: File)
    requires Inv(h, files) && f in files && scope.owner in f.owners && f.place == scope.place
    ensures var (after, result) := Operation(h, files, scope, command, Release(f.id));
            && (result.Done? <==> !f.retained)
            && (result.Done? ==> Becomes(files, after, f.id, None))
            && (result.Refused? ==> after == files && result.error == IsRetained)
  {
    hide Inv, IndexOf;
    InvIsDistinct(h, files);
    HeldIs(files, f.id, f);
    HeldOfRemoved(files, f.id);
  }

  /** Reading tells how much is there, and whether the file is sealed or delivered. */
  lemma ReadsReport(h: Hashes, files: seq<File>, scope: Scope, command: string, f: File)
    requires Inv(h, files) && f in files && scope.owner in f.owners && f.place == scope.place
    ensures var (after, result) := Operation(h, files, scope, command, Read(f.id));
            && after == files && result.Done? && result.id == f.id && result.about == f.about && result.received == |f.body|
            && (result.state.Retained? <==> f.retained) && (result.state.Sealed? <==> f.sealed && !f.retained)
            && (result.state.Uploading? <==> !f.sealed)
  {
    InvIsDistinct(h, files);
    MemberOk(h, files, f);
    hide Inv, IndexOf;
    HeldIs(files, f.id, f);
  }

  /** Nobody but an owner, in the file's own place, can do anything to it. */
  lemma StrangersAreRefused(h: Hashes, files: seq<File>, scope: Scope, command: string, request: Request, f: File)
    requires Inv(h, files) && RequestOk(request) && f in files && !request.Create? && request.id == f.id
    requires scope.owner !in f.owners || f.place != scope.place
    ensures Operation(h, files, scope, command, request) == (files, Refused(Unavailable))
  {
    hide IndexOf, IsLoose, Decode, Encode, Padding;
    HeldIs(files, f.id, f);
  }

  /** A selected file is there, owned, sealed, and is what the selection says it is. */
  ghost predicate IsAvailable(files: seq<File>, scope: Scope, s: Selected) {
    exists f :: f in files && f.id == s.id && scope.owner in f.owners && f.place == scope.place && f.sealed && f.about == s.about
  }

  function Kept(f: Option<File>): Option<File> { if f.Some? then Some(f.value.(retained := true)) else None }

  lemma DeliverIsAvailable(h: Hashes, files: seq<File>, scope: Scope, s: Selected)
    requires Inv(h, files)
    ensures MayDeliver(h, files, scope, s) <==> IsAvailable(files, scope, s)
  {
    if IsAvailable(files, scope, s) {
      var f :| f in files && f.id == s.id && scope.owner in f.owners && f.place == scope.place && f.sealed && f.about == s.about;
      MemberOk(h, files, f);
      HeldIs(files, s.id, f);
    }
  }

  lemma {:induction false} HeldOfRetained(files: seq<File>, selected: seq<Selected>)
    requires DistinctIds(files) && forall s | s in selected :: Has(files, s.id)
    ensures forall id :: Held(Retain(files, selected), id) == if exists s :: s in selected && s.id == id then Kept(Held(files, id)) else Held(files, id)
    decreases |selected|
  {
    hide DistinctIds, Has, Held, Put, Get, Becomes;
    if selected != [] {
      FirstIsRetained(files, selected[0].id);
      var next := Put(files, Get(files, selected[0].id).(retained := true));
      PutKeepsIds(files, Get(files, selected[0].id).(retained := true));
      HeldOfRetained(next, selected[1..]);
      assert forall s :: s in selected <==> s == selected[0] || s in selected[1..];
    }
  }

  lemma FirstIsRetained(files: seq<File>, id: FileId)
    requires DistinctIds(files) && Has(files, id)
    ensures var next := Put(files, Get(files, id).(retained := true));
            DistinctIds(next) && forall other :: Held(next, other) == if other == id then Kept(Held(files, id)) else Held(files, other)
  {
    HeldOfPut(files, Get(files, id).(retained := true));
  }

  /** Up to a hundred available file attachments are delivered together, and only they are then
      retained; in every other case nothing is. */
  lemma DeliveriesRetain(h: Hashes, files: seq<File>, scope: Scope, selected: seq<Selected>)
    requires Inv(h, files)
    ensures var (after, error) := Materialize(h, files, scope, selected);
            && (error.None? <==> |selected| <= 100 && forall s | s in selected :: s.fileContext && IsAvailable(files, scope, s))
            && (error.None? ==> forall id :: Held(after, id) == if exists s :: s in selected && s.id == id then Kept(Held(files, id)) else Held(files, id))
            && (error.Some? ==> after == files)
            && (error == Some(DeliveryUnsupported) <==> |selected| > 100 || exists s :: s in selected && !s.fileContext)
  {
    forall s | s in selected ensures MayDeliver(h, files, scope, s) <==> IsAvailable(files, scope, s) { DeliverIsAvailable(h, files, scope, s); }
    hide Inv, IsAvailable, MayDeliver;
    InvIsDistinct(h, files);
    if Materialize(h, files, scope, selected).1.None? {
      forall s | s in selected ensures Has(files, s.id) { DeliverableIsThere(h, files, scope, s); }
      HeldOfRetained(files, selected);
    }
  }

  lemma DeliverableIsThere(h: Hashes, files: seq<File>, scope: Scope, s: Selected)
    requires MayDeliver(h, files, scope, s)
    ensures Has(files, s.id)
  {}

  /** What a fork makes of a delivered file of the conversation it forks. */
  function Pinned(f: File, scope: Scope, target: Name): File {
    if f.retained && scope.owner in f.owners && f.place == scope.place && target !in f.owners then f.(owners := f.owners + [target]) else f
  }

  /** The fork needs to own the file, but it has as many owners as it may have. */
  predicate IsFull(f: File, scope: Scope, target: Name) { Pinned(f, scope, target) != f && |f.owners| >= 1024 }

  function FirstFull(files: seq<File>, scope: Scope, target: Name): (n: nat)
    ensures n <= |files| && (forall i | 0 <= i < n :: !IsFull(files[i], scope, target))
    ensures n < |files| ==> IsFull(files[n], scope, target)
  {
    if files == [] || IsFull(files[0], scope, target) then 0 else 1 + FirstFull(files[1..], scope, target)
  }

  /** The fork succeeds exactly when no file it needs is full, and then it owns every delivered
      file of the conversation; otherwise it owns those before the first full one. Nothing else
      changes. */
  lemma {:induction false} ForksPin(files: seq<File>, scope: Scope, target: Name)
    ensures var (after, error) := Fork(files, scope, target);
            var n := FirstFull(files, scope, target);
            && |after| == |files| && error == (if n == |files| then None else Some(OwnerLimit))
            && (forall i | 0 <= i < n :: after[i] == Pinned(files[i], scope, target)) && after[n..] == files[n..]
  {
    if files == [] {
    } else {
      PinsOrIsFull(files[0], scope, target);
      hide ForkPins, IsFull, Pinned;
      if IsFull(files[0], scope, target) { return; }
      ForksPin(files[1..], scope, target);
      var n, rest, after := FirstFull(files[1..], scope, target), Fork(files[1..], scope, target).0, Fork(files, scope, target).0;
      assert after == [Pinned(files[0], scope, target)] + rest;
      assert files[n + 1..] == files[1..][n..] && after[n + 1..] == rest[n..];
    }
  }

  lemma PinsOrIsFull(f: File, scope: Scope, target: Name)
    ensures IsFull(f, scope, target) <==> ForkPins(f, scope, target) && |f.owners| >= MAX_OWNERS
    ensures Pinned(f, scope, target) == if ForkPins(f, scope, target) then f.(owners := f.owners + [target]) else f
  {
    if ForkPins(f, scope, target) { assert |f.owners + [target]| != |f.owners|; }
  }

  function GivenUp(f: Option<File>, scope: Scope): Option<File> {
    if f.None? || scope.owner !in f.value.owners || f.value.place != scope.place then f
    else if forall owner | owner in f.value.owners :: owner == scope.owner then None
    else Some(f.value.(owners := WithoutOwner(f.value.owners, scope.owner)))
  }

  lemma {:induction false} RetiredMembers(files: seq<File>, scope: Scope)
    ensures forall g :: g in Retire(files, scope) <==> exists f :: f in files && g in Left(f, scope)
  {
    hide Left;
    if files != [] {
      RetiredMembers(files[1..], scope);
      assert forall f :: f in files <==> f == files[0] || f in files[1..];
    }
  }

  lemma LeftIsGivenUp(f: File, g: File, scope: Scope)
    ensures g in Left(f, scope) <==> GivenUp(Some(f), scope) == Some(g)
  {
    OwnersLeft(f.owners, scope.owner);
    var remaining := WithoutOwner(f.owners, scope.owner);
    if remaining != [] { assert remaining[0] in remaining; }
  }

  /** After retiring, each file the conversation owned has its other owners, in order, or is gone
      if it had none; all other files are as they were. */
  lemma RetirementsGiveUp(h: Hashes, files: seq<File>, scope: Scope)
    requires Inv(h, files)
    ensures forall id :: Held(Retire(files, scope), id) == GivenUp(Held(files, id), scope)
  {
    var after := Retire(files, scope);
    RetireKeeps(h, files, scope);
    RetiredMembers(files, scope);
    hide Inv, FileOk, Left, IndexOf, GivenUp;
    forall id ensures Held(after, id) == GivenUp(Held(files, id), scope) { RetiredHeld(files, after, scope, id); }
  }

  lemma RetiredHeld(files: seq<File>, after: seq<File>, scope: Scope, id: FileId)
    requires DistinctIds(files) && DistinctIds(after) && forall g :: g in after <==> exists f :: f in files && g in Left(f, scope)
    ensures Held(after, id) == GivenUp(Held(files, id), scope)
  {
    hide Left, IndexOf, DistinctIds;
    forall f, g ensures g in Left(f, scope) <==> GivenUp(Some(f), scope) == Some(g) { LeftIsGivenUp(f, g, scope); }
    if Has(files, id) {
      var f := Get(files, id);
      HeldIs(files, id, f);
      if GivenUp(Some(f), scope).Some? {
        var g := GivenUp(Some(f), scope).value;
        assert g in Left(f, scope);
        HeldIs(after, id, g);
      }
    }
    if Has(after, id) {
      var g := Get(after, id);
      var f :| f in files && g in Left(f, scope);
      HeldIs(files, id, f);
    }
  }

  // ---------- A file from its upload to its last owner ----------

  /** A file is uploaded, sealed and delivered in one conversation, which another forks before it
      retires. */
  function UploadSteps(f: File, scope: Scope, command: string): seq<Action> {
    [DoOperation(scope, command, Create(f.about)), DoOperation(scope, command, Append(f.id, 0, Encode(f.body))),
     DoOperation(scope, command, Seal(f.id)), DoMaterialize(scope, [Selected(f.id, f.about, true)])]
  }

  lemma RunSteps(h: Hashes, actions: seq<Action>, story: seq<Action>, k: nat)
    requires k < |story|
    ensures Run(h, [], actions + story[..k + 1]) == Step(h, Run(h, [], actions + story[..k]), story[k])
  {
    var longer := actions + story[..k + 1];
    assert longer[..|longer| - 1] == actions + story[..k] && longer[|longer| - 1] == story[k];
  }

  /** Only what one id stands for has changed since. */
  lemma BecomesAgain(files: seq<File>, next: seq<File>, after: seq<File>, id: FileId, f: Option<File>, g: Option<File>)
    requires Becomes(files, next, id, f) && Becomes(next, after, id, g)
    ensures Becomes(files, after, id, g)
  {}

  lemma HeldIsIn(files: seq<File>, id: FileId, f: File)
    requires Held(files, id) == Some(f)
    ensures f in files && f.id == id && Has(files, id)
  {}

  lemma UploadCreates(h: Hashes, files: seq<File>, scope: Scope, command: string, f: File)
    requires Inv(h, files) && f.id == h.idOf(scope, command) && f.about.byteLength <= FILE_MAX
    requires !Has(files, f.id) && |files| < MAX_FILES && Declared(files) + f.about.byteLength <= STORE_MAX
    ensures var after := Step(h, files, DoOperation(scope, command, Create(f.about)));
            Inv(h, after) && Becomes(files, after, f.id, Some(File(f.id, scope.place, [scope.owner], f.about, false, false, [])))
  {
    StepKeeps(h, files, DoOperation(scope, command, Create(f.about)));
    CreatesAreTaken(h, files, scope, command, f.about);
    hide Inv, Operation, Becomes, Declared;
  }

  lemma UploadAppends(h: Hashes, files: seq<File>, scope: Scope, command: string, f: File, bytes: seq<Byte>)
    requires Inv(h, files) && Held(files, f.id) == Some(f) && scope.owner in f.owners && f.place == scope.place
    requires f.body == [] && !f.sealed && 0 < |bytes| <= CHUNK_BYTES && |bytes| == f.about.byteLength
    ensures var after := Step(h, files, DoOperation(scope, command, Append(f.id, 0, Encode(bytes))));
            Inv(h, after) && Becomes(files, after, f.id, Some(f.(body := bytes)))
  {
    HeldIsIn(files, f.id, f);
    AppendsAreTaken(h, files, scope, command, f, 0, bytes);
    StepKeeps(h, files, DoOperation(scope, command, Append(f.id, 0, Encode(bytes))));
    hide Inv, Operation, Becomes, Encode, Held;
    assert [] + bytes == bytes;
  }

  lemma UploadSeals(h: Hashes, files: seq<File>, scope: Scope, command: string, f: File)
    requires Inv(h, files) && Held(files, f.id) == Some(f) && scope.owner in f.owners && f.place == scope.place
    requires |f.body| == f.about.byteLength && h.digest(f.body) == f.about.sha256
    ensures var after := Step(h, files, DoOperation(scope, command, Seal(f.id)));
            Inv(h, after) && Becomes(files, after, f.id, Some(f.(sealed := true)))
  {
    HeldIsIn(files, f.id, f);
    SealsAreTaken(h, files, scope, command, f);
    StepKeeps(h, files, DoOperation(scope, command, Seal(f.id)));
    hide Inv, Operation, Becomes, Held;
  }

  lemma UploadDelivers(h: Hashes, files: seq<File>, scope: Scope, f: File)
    requires Inv(h, files) && Held(files, f.id) == Some(f) && scope.owner in f.owners && f.place == scope.place && f.sealed
    ensures var after := Step(h, files, DoMaterialize(scope, [Selected(f.id, f.about, true)]));
            Inv(h, after) && Becomes(files, after, f.id, Some(f.(retained := true)))
  {
    var selected := [Selected(f.id, f.about, true)];
    HeldIsIn(files, f.id, f);
    DeliveriesRetain(h, files, scope, selected);
    StepKeeps(h, files, DoMaterialize(scope, selected));
    assert IsAvailable(files, scope, selected[0]);
    hide Inv, Materialize, Held, IsAvailable;
    assert selected[0] in selected;
  }

  lemma ForkOwns(h: Hashes, files: seq<File>, scope: Scope, target: Name, f: File)
    requires Inv(h, files) && Held(files, f.id) == Some(f) && forall g | g in files :: !IsFull(g, scope, target)
    ensures var after := Step(h, files, DoFork(scope, target));
            Inv(h, after) && Held(after, f.id) == Some(Pinned(f, scope, target))
  {
    HeldIsIn(files, f.id, f);
    ForksPin(files, scope, target);
    StepKeeps(h, files, DoFork(scope, target));
    var after := Step(h, files, DoFork(scope, target));
    var i :| 0 <= i < |files| && files[i] == f;
    InvIsDistinct(h, after);
    hide Inv, Fork, Held, IsFull;
    HeldAt(after, i);
  }

  lemma RunSix(h: Hashes, actions: seq<Action>, story: seq<Action>)
    requires |story| == 6
    ensures var first := Run(h, [], actions);
            var fourth := Step(h, Step(h, Step(h, Step(h, first, story[0]), story[1]), story[2]), story[3]);
            Run(h, [], actions + story[..4]) == fourth && Run(h, [], actions + story) == Step(h, Step(h, fourth, story[4]), story[5])
  {
    hide Run, Step;
    assert actions + story[..0] == actions && story[..6] == story;
    RunSteps(h, actions, story, 0);
    RunSteps(h, actions, story, 1);
    RunSteps(h, actions, story, 2);
    RunSteps(h, actions, story, 3);
    RunSteps(h, actions, story, 4);
    RunSteps(h, actions, story, 5);
  }

  /** From every reachable store, a file that fits one chunk and has room can be uploaded, sealed
      and delivered; once another conversation has forked the first, the first may retire, and the
      file stays, whole, with the other as its owner. */
  lemma FilesOutliveTheirConversation(h: Hashes, actions: seq<Action>, scope: Scope, command: string, about: Description, bytes: seq<Byte>, target: Name)
    requires 0 < |bytes| <= CHUNK_BYTES && about.byteLength == |bytes| && about.sha256 == h.digest(bytes) && target != scope.owner
    requires var files := Run(h, [], actions);
             && !Has(files, h.idOf(scope, command)) && |files| < MAX_FILES && Declared(files) + |bytes| <= STORE_MAX
             && forall g | g in files :: !IsFull(g, scope, target)
    ensures var f := File(h.idOf(scope, command), scope.place, [scope.owner], about, true, true, bytes);
            var story := UploadSteps(f, scope, command) + [DoFork(scope, target), DoRetire(scope)];
            && Becomes(Run(h, [], actions), Run(h, [], actions + story[..4]), f.id, Some(f))
            && Held(Run(h, [], actions + story), f.id) == Some(f.(owners := [target]))
  {
    hide Run, Inv, Step, Held, Becomes, IsFull, Declared, Has, Encode;
    var f := File(h.idOf(scope, command), scope.place, [scope.owner], about, true, true, bytes);
    var story := UploadSteps(f, scope, command) + [DoFork(scope, target), DoRetire(scope)];
    RunKeeps(h, actions);
    RunSix(h, actions, story);
    FileLives(h, Run(h, [], actions), scope, command, f, target);
  }

  lemma FileLives(h: Hashes, files: seq<File>, scope: Scope, command: string, f: File, target: Name)
    requires Inv(h, files) && target != scope.owner && 0 < |f.body| <= CHUNK_BYTES
    requires f == File(h.idOf(scope, command), scope.place, [scope.owner], f.about, true, true, f.body)
    requires f.about.byteLength == |f.body| && f.about.sha256 == h.digest(f.body)
    requires !Has(files, f.id) && |files| < MAX_FILES && Declared(files) + |f.body| <= STORE_MAX
    requires forall g | g in files :: !IsFull(g, scope, target)
    ensures var a := UploadSteps(f, scope, command);
            var uploaded := Step(h, Step(h, Step(h, Step(h, files, a[0]), a[1]), a[2]), a[3]);
            && Becomes(files, uploaded, f.id, Some(f))
            && Held(Step(h, Step(h, uploaded, DoFork(scope, target)), DoRetire(scope)), f.id) == Some(f.(owners := [target]))
  {
    var a := UploadSteps(f, scope, command);
    hide Run, Inv, Step, Held, Declared, Has, Encode;
    var empty := File(f.id, scope.place, [scope.owner], f.about, false, false, []);
    UploadCreates(h, files, scope, command, f);
    var created := Step(h, files, a[0]);
    UploadAppends(h, created, scope, command, empty, f.body);
    var appended := Step(h, created, a[1]);
    BecomesAgain(files, created, appended, f.id, Some(empty), Some(empty.(body := f.body)));
    UploadSeals(h, appended, scope, command, empty.(body := f.body));
    var sealed := Step(h, appended, a[2]);
    BecomesAgain(files, appended, sealed, f.id, Some(empty.(body := f.body)), Some(f.(retained := false)));
    UploadDelivers(h, sealed, scope, f.(retained := false));
    var uploaded := Step(h, sealed, a[3]);
    BecomesAgain(files, sealed, uploaded, f.id, Some(f.(retained := false)), Some(f));
    NoneIsFull(h, files, uploaded, scope, target, f);
    ForkOwns(h, uploaded, scope, target, f);
    RetiredIsGivenUp(h, Step(h, uploaded, DoFork(scope, target)), scope, f, target);
  }

  lemma NoneIsFull(h: Hashes, files: seq<File>, after: seq<File>, scope: Scope, target: Name, f: File)
    requires Inv(h, files) && Inv(h, after) && Becomes(files, after, f.id, Some(f)) && |f.owners| == 1
    requires forall g | g in files :: !IsFull(g, scope, target)
    ensures forall g | g in after :: !IsFull(g, scope, target)
  {
    InvIsDistinct(h, after);
    hide Inv, Held;
    forall g | g in after ensures !IsFull(g, scope, target) {
      HeldIs(after, g.id, g);
      if g.id != f.id { HeldIsIn(files, g.id, g); }
    }
  }

  lemma RetiredIsGivenUp(h: Hashes, files: seq<File>, scope: Scope, f: File, target: Name)
    requires Inv(h, files) && target != scope.owner && f.owners == [scope.owner] && f.place == scope.place && f.retained
    requires Held(files, f.id) == Some(Pinned(f, scope, target))
    ensures Held(Step(h, files, DoRetire(scope)), f.id) == Some(f.(owners := [target]))
  {
    RetirementsGiveUp(h, files, scope);
    hide Inv, Held;
    var owners := [scope.owner] + [target];
    assert owners[1..] == [target] && owners[1..][1..] == [];
    assert WithoutOwner([target], scope.owner) == [target] + WithoutOwner([target][1..], scope.owner);
    assert WithoutOwner(owners, scope.owner) == [target];
    assert target in owners;
  }

  // ---------- The store as the object the runner holds ----------

  class OwnedHarnessInputFileStore {
    var files: seq<File>
    const h: Hashes

    ghost predicate Valid()
      reads this
    {
      Inv(h, files)
    }

    constructor (h: Hashes)
      ensures Valid() && files == [] && this.h == h
    {
      this.h, files := h, [];
    }

    method Find(id: FileId) returns (index: Option<nat>)
      ensures index.Some? <==> Has(files, id)
      ensures index.Some? ==> index.value == IndexOf(files, id)
    {
      var i := 0;
      while i < |files|
        invariant i <= |files| && forall j | 0 <= j < i :: files[j].id != id
      {
        if files[i].id == id {
          IndexIsFirst(files, id, i);
          return Some(i);
        }
        i := i + 1;
      }
      return None;
    }

    method CheckQuota(incoming: nat) returns (fits: bool)
      ensures fits == HasRoom(files, incoming)
    {
      var reserved := 0;
      for i := 0 to |files|
        invariant reserved + Declared(files[i..]) == Declared(files)
      {
        assert files[i..][1..] == files[i + 1..];
        reserved := reserved + files[i].about.byteLength;
      }
      fits := incoming <= FILE_MAX && reserved + incoming <= STORE_MAX && |files| <= MAX_FILES;
    }

    method PerformCreate(scope: Scope, command: string, about: Description) returns (result: Result)
      modifies this
      ensures (files, result) == DoCreate(h, old(files), scope, command, about)
    {
      var id := h.idOf(scope, command);
      var existing := Find(id);
      if existing.Some? {
        var f := files[existing.value];
        return if f.about != about then Refused(CommandConflict) else ResultOf(f);
      }
      if |files| >= MAX_FILES { return Refused(Quota); }
      var fits := CheckQuota(about.byteLength);
      if !fits { return Refused(Quota); }
      var f := NewFile(id, scope, about);
      files := files + [f];
      return ResultOf(f);
    }

    method PerformAppend(i: nat, offset: nat, data: string) returns (result: Result)
      requires i < |files| && Has(files, files[i].id) && IndexOf(files, files[i].id) == i && IsLoose(data)
      modifies this
      ensures (files, result) == DoAppend(old(files), old(files)[i], offset, data)
    {
      hide IsLoose, Decode, Encode;
      var f, bytes := files[i], Decode(data);
      if bytes == [] || |bytes| > CHUNK_BYTES || Encode(bytes) != data { return Refused(ChunkInvalid); }
      if offset + |bytes| <= |f.body| && f.body[offset..offset + |bytes|] == bytes { return ResultOf(f); }
      if f.sealed || offset != |f.body| || |f.body| + |bytes| > f.about.byteLength { return Refused(ChunkConflict); }
      files := files[i := f.(body := f.body + bytes)];
      return ResultOf(files[i]);
    }

    method PerformSeal(i: nat) returns (result: Result)
      requires i < |files| && Has(files, files[i].id) && IndexOf(files, files[i].id) == i
      modifies this
      ensures (files, result) == DoSeal(h, old(files), old(files)[i])
    {
      var f := files[i];
      if |f.body| != f.about.byteLength || h.digest(f.body) != f.about.sha256 { return Refused(Integrity); }
      files := files[i := f.(sealed := true)];
      return ResultOf(files[i]);
    }

    method Perform(scope: Scope, command: string, request: Request) returns (result: Result)
      requires Valid() && RequestOk(request)
      modifies this
      ensures Valid()
      ensures (files, result) == Operation(h, old(files), scope, command, request)
    {
      OperationKeeps(h, files, scope, command, request);
      hide Inv, IsLoose, DoCreate, DoAppend, DoSeal;
      if request.Create? {
        result := PerformCreate(scope, command, request.about);
        return;
      }
      var index := Find(request.id);
      if index.None? || !Owns(files[index.value], scope) { return Refused(Unavailable); }
      var i := index.value;
      var f := files[i];
      match request
      case Read(_) => result := ResultOf(f);
      case Release(_) =>
        if f.retained { return Refused(IsRetained); }
        files := files[..i] + files[i + 1..];
        result := Done(f.id, f.about, 0, Released);
      case Append(_, offset, data) => result := PerformAppend(i, offset, data);
      case Seal(_) => result := PerformSeal(i);
    }

    /** Delivers the selected files together or not at all, and retains each. */
    method MaterializeFiles(scope: Scope, selected: seq<Selected>) returns (error: Option<Error>)
      requires Valid()
      modifies this
      ensures Valid() && (files, error) == Materialize(h, old(files), scope, selected)
    {
      StepKeeps(h, files, DoMaterialize(scope, selected));
      hide Inv;
      if |selected| > MAX_SELECTED || exists s :: s in selected && !s.fileContext { return Some(DeliveryUnsupported); }
      for i := 0 to |selected|
        invariant forall j | 0 <= j < i :: MayDeliver(h, files, scope, selected[j])
      {
        if !MayDeliver(h, files, scope, selected[i]) { return Some(Unavailable); }
      }
      ghost var goal := Retain(files, selected);
      for i := 0 to |selected|
        invariant forall s | s in selected :: Has(files, s.id)
        invariant Retain(files, selected[i..]) == goal
      {
        var index := Find(selected[i].id);
        var f := files[index.value].(retained := true);
        PutKeepsIds(files, f);
        assert selected[i..][0] == selected[i] && selected[i..][1..] == selected[i + 1..];
        files := files[index.value := f];
      }
      return None;
    }

    static method RetireLoop(files: seq<File>, scope: Scope) returns (kept: seq<File>)
      ensures kept == Retire(files, scope)
    {
      kept := [];
      for i := 0 to |files|
        invariant kept + Retire(files[i..], scope) == Retire(files, scope)
      {
        var f := files[i];
        assert files[i..][0] == f && files[i..][1..] == files[i + 1..];
        assert kept + (Left(f, scope) + Retire(files[i + 1..], scope)) == kept + Left(f, scope) + Retire(files[i + 1..], scope);
        if Owns(f, scope) {
          var remaining := WithoutOwner(f.owners, scope.owner);
          kept := kept + if remaining != [] then [f.(owners := remaining)] else [];
        } else {
          kept := kept + [f];
        }
      }
    }

    method RetireOwner(scope: Scope)
      requires Valid()
      modifies this
      ensures Valid() && files == Step(h, old(files), DoRetire(scope))
    {
      StepKeeps(h, files, DoRetire(scope));
      files := RetireLoop(files, scope);
    }

    static method ForkLoop(files: seq<File>, scope: Scope, target: Name) returns (after: seq<File>, error: Option<Error>)
      ensures (after, error) == Fork(files, scope, target)
    {
      after := [];
      ghost var goal := Fork(files, scope, target);
      assert files[0..] == files && [] + goal.0 == goal.0;
      for i := 0 to |files|
        invariant after + Fork(files[i..], scope, target).0 == goal.0 && Fork(files[i..], scope, target).1 == goal.1
      {
        var f := files[i];
        assert files[i..][0] == f && files[i..][1..] == files[i + 1..];
        ghost var rest := Fork(files[i + 1..], scope, target).0;
        if f.retained && Owns(f, scope) && target !in f.owners {
          if |f.owners| >= MAX_OWNERS { return after + files[i..], Some(OwnerLimit); }
          assert after + ([f.(owners := f.owners + [target])] + rest) == after + [f.(owners := f.owners + [target])] + rest;
          after := after + [f.(owners := f.owners + [target])];
        } else {
          assert after + ([f] + rest) == after + [f] + rest;
          after := after + [f];
        }
      }
      assert after + [] == after;
      error := None;
    }

    method ForkOwner(scope: Scope, target: Name) returns (error: Option<Error>)
      requires Valid()
      modifies this
      ensures Valid() && (files, error) == Fork(old(files), scope, target)
    {
      StepKeeps(h, files, DoFork(scope, target));
      files, error := ForkLoop(files, scope, target);
    }
  }

  lemma {:induction false} IndexIsFirst(files: seq<File>, id: FileId, i: nat)
    requires i < |files| && files[i].id == id && forall j | 0 <= j < i :: files[j].id != id
    ensures Has(files, id) && IndexOf(files, id) == i
  {
    if i > 0 { IndexIsFirst(files[1..], id, i - 1); }
  }

  // ---------- The client's upload loop ----------

  datatype Phase = Preparing | Creating | Appending | Sealing

  datatype Upload = Uploaded(id: FileId) | NotUploaded(phase: Phase)

  /** A result confirms a request: the file asked for, the bytes expected, an allowed state. */
  predicate Confirms(result: Result, about: Description, received: nat, states: set<State>) {
    result.Done? && result.about == about && result.received == received && result.state in states
  }

  predicate UploadLimitsOk(n: nat, maxBytes: int, chunkSize: int) {
    0 <= maxBytes <= FILE_MAX && 1 <= chunkSize <= CHUNK_BYTES && n <= maxBytes && (n + chunkSize - 1) / chunkSize <= 8192
  }

  lemma LimitsAreThese(n: nat, maxBytes: int, chunkSize: int)
    ensures UploadLimitsOk(n, maxBytes, chunkSize)
       <==> n <= maxBytes <= FILE_MAX && 1 <= chunkSize <= CHUNK_BYTES && n <= 8192 * chunkSize
  {
    if chunkSize > 0 { ChunksWithin(n, chunkSize, (n + chunkSize - 1) / chunkSize, 8192); }
  }

  lemma ChunksWithin(n: nat, size: nat, chunks: nat, limit: nat)
    requires size > 0 && chunks == (n + size - 1) / size
    ensures chunks <= limit <==> n <= size * limit
  {
    var rest := (n + size - 1) % size;
    assert n + size - 1 == size * chunks + rest;
    if chunks <= limit {
      TimesGrows(size, chunks, limit);
    } else {
      TimesGrows(size, limit + 1, chunks);
      assert size * (limit + 1) == size * limit + size;
    }
  }

  lemma TimesGrows(size: nat, a: nat, b: nat)
    requires a <= b
    ensures size * a <= size * b
  {}

  function Finished(id: FileId, scope: Scope, about: Description, bytes: seq<Byte>): File {
    File(id, scope.place, [scope.owner], about, true, false, bytes)
  }

  function Partial(id: FileId, scope: Scope, about: Description, bytes: seq<Byte>): File {
    File(id, scope.place, [scope.owner], about, false, false, bytes)
  }

  lemma PartIsWellFormed(part: seq<Byte>)
    requires part != [] && |part| <= CHUNK_BYTES
    ensures var data := Encode(part);
            IsLoose(data) && Decode(data) == part && 4 <= |data| <= CHUNK_TEXT && |data| / 4 * 3 - Padding(data) <= CHUNK_BYTES
  {
    DecodeOfEncode(part);
    hide Encode, Decode, IsLoose, IsCanonical, Padding;
    DecodedLength(Encode(part));
    ChunkTextFits(Encode(part));
  }

  /** An append at the end is accepted, and adds exactly its part. */
  lemma PartIsAccepted(files: seq<File>, f: File, part: seq<Byte>, data: string)
    requires DistinctIds(files) && Has(files, f.id) && part != [] && |part| <= CHUNK_BYTES
    requires IsLoose(data) && Decode(data) == part && Encode(part) == data
    ensures var grown := f.(body := f.body + part);
            && DoAppend(files, f, |f.body|, data)
               == (if f.sealed || |f.body| + |part| > f.about.byteLength then (files, Refused(ChunkConflict))
                   else (Put(files, grown), ResultOf(grown)))
            && Has(Put(files, grown), f.id) && Get(Put(files, grown), f.id) == grown
  {
    NotARepeat(f, part);
    hide Encode, Decode, IsLoose, IsRepeat, Put, Get, Has, DistinctIds, ResultOf;
    GetOfPut(files, f.(body := f.body + part));
  }

  lemma NotARepeat(f: File, part: seq<Byte>)
    requires part != []
    ensures !IsRepeat(f, |f.body|, part)
  {}

  lemma LastIsFound(files: seq<File>, f: File)
    requires DistinctIds(files + [f])
    ensures Has(files + [f], f.id) && IndexOf(files + [f], f.id) == |files|
  {
    IndexIsFirst(files + [f], f.id, |files|);
  }

  /** A new upload fits under the id. */
  predicate IsFree(files: seq<File>, id: FileId, size: nat) { !Has(files, id) && |files| < MAX_FILES && HasRoom(files, size) }

  lemma PutLast(files: seq<File>, f: File, g: File)
    requires DistinctIds(files + [f]) && g.id == f.id
    ensures Has(files + [f], f.id) && Get(files + [f], f.id) == f && Put(files + [f], g) == files + [g]
  {
    LastIsFound(files, f);
  }

  lemma LastGrows(files: seq<File>, f: File, part: seq<Byte>)
    requires DistinctIds(files + [f])
    ensures Has(files + [f], f.id) && Get(files + [f], f.id) == f
    ensures Put(files + [f], f.(body := f.body + part)) == files + [f.(body := f.body + part)]
    ensures Put(files + [f], f.(sealed := true)) == files + [f.(sealed := true)]
  {
    PutLast(files, f, f.(body := f.body + part));
    PutLast(files, f, f.(sealed := true));
  }

  /** One append, and the check of its result. */
  method AppendPart(store: OwnedHarnessInputFileStore, scope: Scope, about: Description, id: FileId, offset: nat, part: seq<Byte>,
                    ghost got: seq<Byte>, ghost before: seq<File>)
    returns (ok: bool)
    requires store.Valid() && Has(store.files, id) && Get(store.files, id).about == about && Get(store.files, id).body == got
    requires |got| == offset && part != [] && |part| <= CHUNK_BYTES && |got| + |part| <= about.byteLength
    modifies store
    ensures store.Valid()
    ensures ok ==> Has(store.files, id) && Get(store.files, id).about == about && Get(store.files, id).body == got + part
    ensures old(store.files) == before + [Partial(id, scope, about, got)] ==>
              ok && store.files == before + [Partial(id, scope, about, got + part)]
  {
    hide Inv, IsLoose, Encode, Decode, Padding, DoAppend, Put, DistinctIds, IsCanonical;
    ghost var f := Get(store.files, id);
    PartIsWellFormed(part);
    InvIsDistinct(store.h, store.files);
    PartIsAccepted(store.files, f, part, Encode(part));
    if store.files == before + [Partial(id, scope, about, got)] { LastGrows(before, Partial(id, scope, about, got), part); }
    var appended := store.Perform(scope, "", Append(id, offset, Encode(part)));
    ok := Confirms(appended, about, offset + |part|, {Uploading});
  }

  /** The seal, and the check of its result. */
  method SealUpload(store: OwnedHarnessInputFileStore, scope: Scope, about: Description, id: FileId, ghost before: seq<File>)
    returns (ok: bool)
    requires store.Valid() && Has(store.files, id)
    modifies store
    ensures store.Valid()
    ensures ok ==> Has(store.files, id) && Get(store.files, id).body == old(Get(store.files, id).body) && Get(store.files, id).sealed
    ensures forall bytes | old(store.files) == before + [Partial(id, scope, about, bytes)] && |bytes| == about.byteLength
              && store.h.digest(bytes) == about.sha256 :: ok && store.files == before + [Finished(id, scope, about, bytes)]
  {
    hide Inv, DistinctIds, Put, IsLoose, IsCanonical;
    ghost var f := Get(store.files, id);
    InvIsDistinct(store.h, store.files);
    GetOfPut(store.files, f.(sealed := true));
    if store.files == before + [f] { LastGrows(before, f, []); }
    forall bytes | store.files == before + [Partial(id, scope, about, bytes)] ensures f == Partial(id, scope, about, bytes) {
      LastGrows(before, Partial(id, scope, about, bytes), []);
    }
    var sealed := store.Perform(scope, "", Seal(id));
    ok := Confirms(sealed, about, about.byteLength, {Sealed, Retained});
  }

  /** Uploads bytes part by part.  Whatever upload it reports holds exactly these bytes, and
      under a free id with room in the store it always succeeds. */
  method UploadHcpInputFile(store: OwnedHarnessInputFileStore, scope: Scope, command: string, filename: string, mime: string,
                            bytes: seq<Byte>, maxBytes: int, chunkSize: int)
    returns (r: Upload)
    requires store.Valid()
    modifies store
    ensures store.Valid()
    ensures r.Uploaded? ==> Has(store.files, r.id) && Get(store.files, r.id).body == bytes && Get(store.files, r.id).sealed
    ensures var id := store.h.idOf(scope, command);
            var about := Description(filename, mime, |bytes|, store.h.digest(bytes));
            (|bytes| <= maxBytes <= FILE_MAX && 1 <= chunkSize <= CHUNK_BYTES && |bytes| <= 8192 * chunkSize
             && IsFree(old(store.files), id, |bytes|)) ==>
              r == Uploaded(id) && store.files == old(store.files) + [Finished(id, scope, about, bytes)]
    ensures r == NotUploaded(Preparing) <==> maxBytes > FILE_MAX || |bytes| > maxBytes || chunkSize < 1 || chunkSize > CHUNK_BYTES || |bytes| > 8192 * chunkSize
  {
    hide Inv, IsFree, DoCreate, DistinctIds;
    LimitsAreThese(|bytes|, maxBytes, chunkSize);
    if !UploadLimitsOk(|bytes|, maxBytes, chunkSize) { return NotUploaded(Preparing); }
    var about := Description(filename, mime, |bytes|, store.h.digest(bytes));
    ghost var before, expected := store.files, store.h.idOf(scope, command);
    ghost var free := IsFree(before, expected, |bytes|);
    InvIsDistinct(store.h, before);
    CreatedIsEmpty(store.h, before, scope, command, about);
    var created := store.Perform(scope, command, Create(about));
    if !Confirms(created, about, 0, {Uploading}) { return NotUploaded(Creating); }
    var id := created.id;
    var offset := 0;
    while offset < |bytes|
      invariant store.Valid() && 0 <= offset <= |bytes|
      invariant Has(store.files, id) && Get(store.files, id).about == about && Get(store.files, id).body == bytes[..offset]
      invariant free ==> id == expected && store.files == before + [Partial(id, scope, about, bytes[..offset])]
      decreases |bytes| - offset
    {
      var end := if offset + chunkSize < |bytes| then offset + chunkSize else |bytes|;
      assert bytes[..offset] + bytes[offset..end] == bytes[..end];
      var ok := AppendPart(store, scope, about, id, offset, bytes[offset..end], bytes[..offset], before);
      if !ok { return NotUploaded(Appending); }
      offset := end;
    }
    assert bytes[..offset] == bytes;
    var ok := SealUpload(store, scope, about, id, before);
    if !ok { return NotUploaded(Sealing); }
    return Uploaded(id);
  }

  lemma InvIsDistinct(h: Hashes, files: seq<File>)
    requires Inv(h, files)
    ensures DistinctIds(files)
  {}

  lemma CreatedIsEmpty(h: Hashes, files: seq<File>, scope: Scope, command: string, about: Description)
    requires DistinctIds(files)
    ensures var (after, result) := DoCreate(h, files, scope, command, about);
            && (result.Done? ==> Has(after, result.id) && ResultOf(Get(after, result.id)) == result)
            && (IsFree(files, h.idOf(scope, command), about.byteLength) ==>
                  result == ResultOf(NewFile(h.idOf(scope, command), scope, about))
                  && after == files + [NewFile(h.idOf(scope, command), scope, about)])
  {
    var f := NewFile(h.idOf(scope, command), scope, about);
    if !Has(files, f.id) {
      assert DistinctIds(files + [f]);
      LastIsFound(files, f);
    }
  }
}
