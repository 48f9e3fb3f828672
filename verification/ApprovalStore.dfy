/** The store of pending reviews and operator approvals: immutable files, created once,
    over a directory whose writes may fail before, after or in the middle of their
    effect. A body that does not fit into its record is kept raw beside it. */
module ApprovalStore {
  import opened Wrappers
  import opened Records

  type Byte = int

  /** The largest file of the secure store. */
  const FILE_CAP := 2 * 1024 * 1024

  datatype Pending = Pending(
    messageID: string, direction: Direction, source: string, destination: string, body: string, bodyExternal: bool,
    bodyDigest: Digest, reason: string, createdAt: Time)

  function BindingOf(p: Pending): Approval {
    Approval(p.messageID, p.direction, p.source, p.destination, p.bodyDigest)
  }

  // ----- Encodings -----

  datatype Codec = Codec(
    encodePending: Pending -> seq<Byte>, decodePending: seq<Byte> -> Option<Pending>,
    encodeApproval: (Approval, Time) -> seq<Byte>, decodeApproval: seq<Byte> -> Option<(Approval, Time)>,
    encodeText: string -> seq<Byte>, decodeText: seq<Byte> -> Option<string>)

  /** Records decode from their encodings, but not from a beginning of one; texts are
      encoded injectively. */
  ghost predicate CodecOk(c: Codec) {
    && (forall p :: c.decodePending(c.encodePending(p)) == Some(p) && c.encodePending(p) != [])
    && (forall p, n :: 0 <= n < |c.encodePending(p)| ==> c.decodePending(c.encodePending(p)[..n]) == None)
    && (forall a, at :: c.decodeApproval(c.encodeApproval(a, at)) == Some((a, at)) && c.encodeApproval(a, at) != [])
    && (forall a, at, n :: 0 <= n < |c.encodeApproval(a, at)| ==> c.decodeApproval(c.encodeApproval(a, at)[..n]) == None)
    && (forall t :: c.decodeText(c.encodeText(t)) == Some(t))
  }

  predicate Fits(data: seq<Byte>) {
    0 < |data| <= FILE_CAP
  }

  // ----- File names -----

  function PendingFile(id: string): string { id + ".pending.json" }

  function BodyFile(id: string): string { id + ".body" }

  function ApprovedFile(id: string): string { id + ".approved.json" }

  /** The names of one message determine it, and its three names never meet those of any
      message, although identifiers may contain dots. */
  lemma NamesAreDistinct(a: string, b: string)
    ensures PendingFile(a) != BodyFile(b) && PendingFile(a) != ApprovedFile(b) && BodyFile(a) != ApprovedFile(b)
    ensures PendingFile(a) == PendingFile(b) || BodyFile(a) == BodyFile(b) || ApprovedFile(a) == ApprovedFile(b) ==> a == b
  {
    assert PendingFile(a)[|PendingFile(a)| - 1] == 'n' && ApprovedFile(b)[|ApprovedFile(b)| - 1] == 'n';
    assert BodyFile(a)[|BodyFile(a)| - 1] == 'y' && BodyFile(b)[|BodyFile(b)| - 1] == 'y';
    assert PendingFile(a)[|PendingFile(a)| - 6] == 'g' && ApprovedFile(b)[|ApprovedFile(b)| - 6] == 'd';
    assert PendingFile(a)[..|a|] == a && BodyFile(a)[..|a|] == a && ApprovedFile(a)[..|a|] == a;
    assert PendingFile(b)[..|b|] == b && BodyFile(b)[..|b|] == b && ApprovedFile(b)[..|b|] == b;
  }

  // ----- Loading -----

  datatype Loaded = Missing | Broken | Found(pending: Pending)

  function ReadFile(files: map<string, seq<Byte>>, name: string): Option<seq<Byte>> {
    if name in files && Fits(files[name]) then Some(files[name]) else None
  }

  /** The pending review of a message, with its body wherever it is kept. */
  function Load(c: Codec, files: map<string, seq<Byte>>, id: string): Loaded {
    if PendingFile(id) !in files then Missing
    else
      var data := ReadFile(files, PendingFile(id));
      if data.None? || c.decodePending(data.value).None? then Broken
      else
        var p := c.decodePending(data.value).value;
        if !p.bodyExternal then Found(p)
        else
          var raw := ReadFile(files, BodyFile(id));
          if p.body != "" || raw.None? || c.decodeText(raw.value).None?
             || TextDigest(c.decodeText(raw.value).value) != p.bodyDigest then Broken
          else Found(p.(body := c.decodeText(raw.value).value, bodyExternal := false))
  }

  /** A review loads as it was recorded. A body that is kept outside its record is the text of
      the body file, and it has the digest that the record states. */
  lemma LoadedIsRecorded(c: Codec, files: map<string, seq<Byte>>, id: string)
    requires Load(c, files, id).Found?
    ensures PendingFile(id) in files && c.decodePending(files[PendingFile(id)]).Some?
    ensures var p, recorded := Load(c, files, id).pending, c.decodePending(files[PendingFile(id)]).value;
            if !recorded.bodyExternal then p == recorded
            else recorded.body == "" && TextDigest(p.body) == recorded.bodyDigest
                 && BodyFile(id) in files && c.decodeText(files[BodyFile(id)]) == Some(p.body)
                 && p == Pending(recorded.messageID, recorded.direction, recorded.source, recorded.destination, p.body, false,
                                 recorded.bodyDigest, recorded.reason, recorded.createdAt)
  {
  }

  /** Files are only ever added. */
  ghost predicate Extends(files: map<string, seq<Byte>>, later: map<string, seq<Byte>>) {
    forall name :: name in files ==> name in later && later[name] == files[name]
  }

  /** What can be loaded once can be loaded for ever after. */
  lemma LoadedStays(c: Codec, files: map<string, seq<Byte>>, later: map<string, seq<Byte>>, id: string)
    requires Extends(files, later) && Load(c, files, id).Found?
    ensures Load(c, later, id) == Load(c, files, id)
  {
    assert PendingFile(id) in files && PendingFile(id) in later;
    assert BodyFile(id) in files ==> BodyFile(id) in later;
  }

  /** The loaded review is the one asked for. */
  predicate Matches(loaded: Loaded, p: Pending) {
    loaded.Found? && BindingOf(loaded.pending) == BindingOf(p) && loaded.pending.body == p.body && !loaded.pending.bodyExternal
  }

  /** The approval file of a message is what an approval wrote, whole or torn. */
  ghost predicate ApprovedOk(c: Codec, files: map<string, seq<Byte>>, granted: set<Approval>, id: string) {
    var name := ApprovedFile(id);
    if name in files && Fits(files[name]) && c.decodeApproval(files[name]).Some? then
      var a := c.decodeApproval(files[name]).value.0;
      a in granted && a.messageID == id && forall b :: b in granted && b.messageID == id ==> b == a
    else forall a :: a in granted ==> a.messageID != id
  }

  /** The record of a pending review, if it decodes, is about the message it is filed under. */
  predicate PendingOk(c: Codec, files: map<string, seq<Byte>>, id: string) {
    var name := PendingFile(id);
    name in files && c.decodePending(files[name]).Some? ==> c.decodePending(files[name]).value.messageID == id
  }

  lemma PendingsUntouched(c: Codec, files: map<string, seq<Byte>>, later: map<string, seq<Byte>>)
    requires forall id :: PendingOk(c, files, id)
    requires forall id :: Lookup(later, PendingFile(id)) == Lookup(files, PendingFile(id))
    ensures forall id :: PendingOk(c, later, id)
  {
    forall id ensures PendingOk(c, later, id) {
      assert PendingOk(c, files, id);
      assert Lookup(later, PendingFile(id)) == Lookup(files, PendingFile(id));
    }
  }

  lemma ApprovalsUntouched(c: Codec, files: map<string, seq<Byte>>, later: map<string, seq<Byte>>, granted: set<Approval>)
    requires forall id :: ApprovedOk(c, files, granted, id)
    requires forall id :: Lookup(later, ApprovedFile(id)) == Lookup(files, ApprovedFile(id))
    ensures forall id :: ApprovedOk(c, later, granted, id)
  {
    forall id ensures ApprovedOk(c, later, granted, id) {
      assert ApprovedOk(c, files, granted, id);
      assert Lookup(later, ApprovedFile(id)) == Lookup(files, ApprovedFile(id));
    }
  }

  // ----- The store -----

  /** How the creation of a file ends, once it is known to be absent. */
  datatype Fault = NoFault | Before | After | Torn(bytes: nat)

  datatype Creation = Created | Exists | Failed

  datatype Saved = Done | ConflictingSave | SaveFailed

  class Store {
    const codec: Codec
    var files: map<string, seq<Byte>>
    /** The approvals that took effect. */
    ghost var granted: set<Approval>

    ghost predicate Valid()
      reads this
    {
      CodecOk(codec) && (forall id :: ApprovedOk(codec, files, granted, id)) && forall id :: PendingOk(codec, files, id)
    }

    constructor (c: Codec)
      requires CodecOk(c)
      ensures Valid() && files == map[] && granted == {}
    {
      codec, files, granted := c, map[], {};
    }

    method Create(name: string, data: seq<Byte>, fault: Fault) returns (r: Creation)
      modifies `files
      ensures Extends(old(files), files)
      ensures name in old(files) && Fits(data) ==> r == Exists
      ensures r.Exists? ==> name in old(files) && files == old(files)
      ensures r.Created? ==> Fits(data) && name !in old(files) && files == old(files)[name := data]
      ensures forall other :: other != name ==> Lookup(files, other) == Lookup(old(files), other)
      ensures r.Failed? ==> files == old(files)
                            || (name !in old(files) && Fits(data) && exists n :: 0 <= n <= |data| && files == old(files)[name := data[..n]])
      ensures Fits(data) && name !in old(files) && fault.NoFault? ==> r.Created?
    {
      if !Fits(data) { return Failed; }
      if name in files { return Exists; }
      match fault
      case NoFault =>
        files := files[name := data];
        return Created;
      case Before =>
        return Failed;
      case After =>
        files := files[name := data];
        assert data[..|data|] == data;
        return Failed;
      case Torn(bytes) =>
        files := files[name := data[..if bytes < |data| then bytes else |data|]];
        return Failed;
    }

    // ----- Pending reviews -----

    /** Stores an exact review request. Success means that it loads from now on, however
        it came to be stored: inline, spilled, as a replay, or resumed after a crash that
        left only the body. A request that differs from the stored one changes nothing. */
    method SavePending(p: Pending, bodyFault: Fault, recordFault: Fault) returns (r: Saved)
      requires Valid()
      modifies `files
      ensures Valid() && Extends(old(files), files) && granted == old(granted)
      ensures forall id :: Lookup(files, ApprovedFile(id)) == Lookup(old(files), ApprovedFile(id))
      ensures r.Done? && p.bodyDigest == TextDigest(p.body) ==> Matches(Load(codec, files, p.messageID), p)
      ensures PendingFile(p.messageID) in old(files) ==> files == old(files)
      ensures old(Load(codec, files, p.messageID)).Found? && !p.bodyExternal && Storable(codec, p) ==>
                (r.Done? <==> Matches(old(Load(codec, files, p.messageID)), p))
      ensures !p.bodyExternal && Storable(codec, p) && Unclaimed(codec, old(files), p) && bodyFault.NoFault? && recordFault.NoFault?
              ==> r.Done?
    {
      hide CodecOk, Fits;
      if p.bodyExternal { return SaveFailed; }
      var record := codec.encodePending(p);
      if !Fits(record) {
        if !Fits(codec.encodeText(p.body)) { return SaveFailed; }
        r := WriteSpilledBody(p, bodyFault);
        if !r.Done? { return; }
        record := codec.encodePending(Spilled(p));
        if !Fits(record) { return SaveFailed; }
      }
      r := StorePending(record, p, recordFault);
    }

    lemma KeepsApprovals(before: map<string, seq<Byte>>, id: string)
      requires forall i :: ApprovedOk(codec, before, granted, i)
      requires (forall other :: other != BodyFile(id) ==> Lookup(files, other) == Lookup(before, other))
            || (forall other :: other != PendingFile(id) ==> Lookup(files, other) == Lookup(before, other))
      ensures forall i :: ApprovedOk(codec, files, granted, i) && Lookup(files, ApprovedFile(i)) == Lookup(before, ApprovedFile(i))
    {
      forall i ensures Lookup(files, ApprovedFile(i)) == Lookup(before, ApprovedFile(i)) {
        NamesAreDistinct(id, i);
      }
      ApprovalsUntouched(codec, before, files, granted);
    }

    lemma KeepsPendings(before: map<string, seq<Byte>>, id: string)
      requires forall i :: PendingOk(codec, before, i)
      requires (forall other :: other != BodyFile(id) ==> Lookup(files, other) == Lookup(before, other))
            || (forall other :: other != ApprovedFile(id) ==> Lookup(files, other) == Lookup(before, other))
      ensures forall i :: PendingOk(codec, files, i)
    {
      forall i ensures Lookup(files, PendingFile(i)) == Lookup(before, PendingFile(i)) {
        NamesAreDistinct(i, id);
      }
      PendingsUntouched(codec, before, files);
    }

    /** A new record, whole or torn, is filed under its own message. */
    lemma Filed(before: map<string, seq<Byte>>, p: Pending)
      requires CodecOk(codec) && forall i :: PendingOk(codec, before, i)
      requires var name, data := PendingFile(p.messageID), codec.encodePending(p);
               files == before || exists n :: 0 <= n <= |data| && files == before[name := data[..n]]
      ensures forall i :: PendingOk(codec, files, i)
    {
      var data := codec.encodePending(p);
      forall i ensures PendingOk(codec, files, i) {
        assert PendingOk(codec, before, i);
        if i != p.messageID {
          NamesAreDistinct(i, p.messageID);
        } else if files != before {
          var n :| 0 <= n <= |data| && files == before[PendingFile(i) := data[..n]];
          assert data[..|data|] == data;
        }
      }
    }

    /** Makes sure that the raw body is stored, unless the record is stored already. */
    method WriteSpilledBody(p: Pending, fault: Fault) returns (r: Saved)
      requires Valid() && Fits(codec.encodeText(p.body))
      modifies `files
      ensures Valid() && Extends(old(files), files)
      ensures forall id :: Lookup(files, ApprovedFile(id)) == Lookup(old(files), ApprovedFile(id))
      ensures PendingFile(p.messageID) in files <==> PendingFile(p.messageID) in old(files)
      ensures PendingFile(p.messageID) in old(files) ==> files == old(files)
      ensures old(Load(codec, files, p.messageID)).Found? ==> r.Done?
      ensures r.Done? && PendingFile(p.messageID) !in files ==>
                BodyFile(p.messageID) in files && files[BodyFile(p.messageID)] == codec.encodeText(p.body)
      ensures Unclaimed(codec, old(files), p) && fault.NoFault? ==> r.Done?
    {
      hide CodecOk;
      NamesAreDistinct(p.messageID, p.messageID);
      ghost var before := files;
      if PendingFile(p.messageID) in files {
        return if ReadFile(files, PendingFile(p.messageID)).Some? then Done else SaveFailed;
      }
      var body := codec.encodeText(p.body);
      var created := Create(BodyFile(p.messageID), body, fault);
      KeepsApprovals(before, p.messageID);
      KeepsPendings(before, p.messageID);
      if created.Created? { return Done; }
      if created.Failed? { return SaveFailed; }
      var existing := ReadFile(files, BodyFile(p.messageID));
      if existing.None? { return SaveFailed; }
      return if existing.value == body then Done else ConflictingSave;
    }

    method StorePending(record: seq<Byte>, p: Pending, fault: Fault) returns (r: Saved)
      requires Valid() && !p.bodyExternal && Fits(record)
      requires record == codec.encodePending(p)
               || (record == codec.encodePending(Spilled(p)) && Fits(codec.encodeText(p.body))
                   && (PendingFile(p.messageID) !in files ==>
                         BodyFile(p.messageID) in files && files[BodyFile(p.messageID)] == codec.encodeText(p.body)))
      modifies `files
      ensures Valid() && Extends(old(files), files)
      ensures forall id :: Lookup(files, ApprovedFile(id)) == Lookup(old(files), ApprovedFile(id))
      ensures r.Done? && p.bodyDigest == TextDigest(p.body) ==> Matches(Load(codec, files, p.messageID), p)
      ensures PendingFile(p.messageID) in old(files) ==>
                files == old(files) && (r.Done? <==> Matches(Load(codec, files, p.messageID), p))
      ensures PendingFile(p.messageID) !in old(files) && fault.NoFault? ==> r.Done?
    {
      NamesAreDistinct(p.messageID, p.messageID);
      ghost var before := files;
      var created := Create(PendingFile(p.messageID), record, fault);
      KeepsApprovals(before, p.messageID);
      assert record[..|record|] == record;
      Filed(before, if record == codec.encodePending(p) then p else Spilled(p));
      if created.Created? { return Done; }
      if created.Failed? { return SaveFailed; }
      var prior := Load(codec, files, p.messageID);
      if !prior.Found? { return SaveFailed; }
      return if BindingOf(prior.pending) == BindingOf(p) && prior.pending.body == p.body then Done else ConflictingSave;
    }

    /** The pending review of a message, for display to the operator. */
    method PendingReview(id: string) returns (r: Loaded)
      ensures r == Load(codec, files, id)
    {
      r := Load(codec, files, id);
    }

    // ----- Approvals -----

    /** Records an approval. The first one of a message that takes effect stands; another
        one changes nothing, and is an error unless it is the same. */
    method Approve(a: Approval, now: Time, fault: Fault) returns (r: Saved)
      requires Valid()
      modifies this
      ensures Valid() && Extends(old(files), files) && old(granted) <= granted <= old(granted) + {a}
      ensures r.Done? ==> a in granted
      ensures ApprovedFile(a.messageID) in old(files) ==> files == old(files) && granted == old(granted)
      ensures a in old(granted) && Fits(codec.encodeApproval(a, now)) ==> r.Done?
      ensures Fits(codec.encodeApproval(a, now)) && ApprovedFile(a.messageID) !in old(files) && fault.NoFault? ==> r.Done?
    {
      var data := codec.encodeApproval(a, now);
      ghost var before := files;
      assert ApprovedOk(codec, before, granted, a.messageID);
      var created := Create(ApprovedFile(a.messageID), data, fault);
      if !created.Exists? {
        assert data[..|data|] == data;
        if ApprovedFile(a.messageID) in files && ApprovedFile(a.messageID) !in before
           && files[ApprovedFile(a.messageID)] == data {
          granted := granted + {a};
        }
        Granted(before, old(granted), a, now);
        KeepsPendings(before, a.messageID);
        return if created.Created? then Done else SaveFailed;
      }
      var existing := ReadFile(files, ApprovedFile(a.messageID));
      if existing.None? || codec.decodeApproval(existing.value).None? { return SaveFailed; }
      return if codec.decodeApproval(existing.value).value.0 == a then Done else ConflictingSave;
    }

    /** A new approval file, whole or torn, keeps the files and the approvals in step. */
    lemma Granted(before: map<string, seq<Byte>>, earlier: set<Approval>, a: Approval, now: Time)
      requires CodecOk(codec) && forall id :: ApprovedOk(codec, before, earlier, id)
      requires var name, data := ApprovedFile(a.messageID), codec.encodeApproval(a, now);
               && (files == before
                   || (name !in before && Fits(data) && exists n :: 0 <= n <= |data| && files == before[name := data[..n]]))
               && granted == if name in files && name !in before && files[name] == data then earlier + {a} else earlier
      ensures forall id :: ApprovedOk(codec, files, granted, id)
    {
      var data := codec.encodeApproval(a, now);
      forall id ensures ApprovedOk(codec, files, granted, id) {
        assert ApprovedOk(codec, before, earlier, id);
        if id != a.messageID {
          NamesAreDistinct(id, a.messageID);
        } else if files != before {
          var n :| 0 <= n <= |data| && files == before[ApprovedFile(id) := data[..n]];
          assert data[..|data|] == data;
        }
      }
    }

    /** The operator's command: shows the pending review of a message and, once confirmed,
        approves exactly what was shown. */
    method ApprovePending(id: string, confirmed: bool, now: Time, fault: Fault) returns (shown: Loaded, r: Saved)
      requires Valid()
      modifies this
      ensures Valid() && Extends(old(files), files)
      ensures shown == old(Load(codec, files, id)) && (shown.Found? ==> shown.pending.messageID == id)
      ensures !shown.Found? || !confirmed ==> r.SaveFailed? && files == old(files) && granted == old(granted)
      ensures shown.Found? ==> Load(codec, files, id) == shown
                               && old(granted) <= granted <= old(granted) + {BindingOf(shown.pending)}
                               && (r.Done? ==> confirmed && BindingOf(shown.pending) in granted)
      ensures shown.Found? && confirmed && ApprovedFile(id) !in old(files) && fault.NoFault? ==>
                (Fits(codec.encodeApproval(BindingOf(shown.pending), now)) ==> r.Done?)
    {
      hide CodecOk, Fits;
      shown := PendingReview(id);
      if !shown.Found? { return shown, SaveFailed; }
      FoundIsFiled(id);
      if !confirmed { return shown, SaveFailed; }
      ghost var before := files;
      r := Approve(BindingOf(shown.pending), now, fault);
      LoadedStays(codec, before, files, id);
    }

    lemma FoundIsFiled(id: string)
      requires Valid() && Load(codec, files, id).Found?
      ensures Load(codec, files, id).pending.messageID == id
    {
      hide CodecOk, ApprovedOk;
      assert PendingOk(codec, files, id);
    }

    /** Holds exactly for the approvals that took effect; only a torn approval file is
        reported as an error, and then nothing is approved. */
    method IsApproved(a: Approval) returns (r: Option<bool>)
      requires Valid()
      ensures r == Some(true) <==> a in granted
      ensures r.None? ==> forall b :: b in granted ==> b.messageID != a.messageID
    {
      assert ApprovedOk(codec, files, granted, a.messageID);
      if ApprovedFile(a.messageID) !in files { return Some(false); }
      var data := ReadFile(files, ApprovedFile(a.messageID));
      if data.None? { return None; }
      var record := codec.decodeApproval(data.value);
      if record.None? { return None; }
      return Some(record.value.0 == a);
    }
  }

  /** No record of the message is stored, and at most its own body. */
  predicate Unclaimed(c: Codec, files: map<string, seq<Byte>>, p: Pending) {
    PendingFile(p.messageID) !in files
    && (BodyFile(p.messageID) in files ==> files[BodyFile(p.messageID)] == c.encodeText(p.body))
  }

  function Spilled(p: Pending): Pending {
    p.(body := "", bodyExternal := true)
  }

  /** The record fits inline, or without its body while the body fits by itself. */
  predicate Storable(c: Codec, p: Pending) {
    Fits(c.encodePending(p)) || (Fits(c.encodeText(p.body)) && Fits(c.encodePending(Spilled(p))))
  }
}
