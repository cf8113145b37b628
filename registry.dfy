/**
 * The detector registry of the plugin API: an insertion-ordered list of
 * detectors whose type names are unique up to ASCII case, guarded by a
 * reader/writer lock.  Register appends, unregister deletes the first
 * match, and a snapshot is a point-in-time copy of the list.
 */
module DetectorRegistry {
  import opened Wrappers
  import opened CStrings

  /** Stands for a detector's capability table (its `fn_auto_detect` and `fn_file_detect` pointers). */
  type Operations = nat

  /** A `ServerDetector`: its type name and its operations. */
  datatype Detector = Detector(typeName: string, ops: Operations)

  /** Some entry's type name equals `t` up to case. */
  predicate HasType(s: seq<Detector>, t: string)
  {
    exists j :: 0 <= j < |s| && EqualsIgnoreCase(s[j].typeName, t)
  }

  /** No two entries have type names that are equal up to case. */
  predicate UniqueTypes(s: seq<Detector>)
  {
    forall i, j :: 0 <= i < j < |s| ==> !EqualsIgnoreCase(s[i].typeName, s[j].typeName)
  }

  /** The position of the first entry whose type name equals `t` up to case. */
  function FirstMatch(s: seq<Detector>, t: string): (r: Option<nat>)
    ensures r.None? <==> !HasType(s, t)
    ensures r.Some? ==> r.value < |s| && EqualsIgnoreCase(s[r.value].typeName, t)
    ensures r.Some? ==> forall j :: 0 <= j < r.value ==> !EqualsIgnoreCase(s[j].typeName, t)
  {
    if s == [] then None
    else if EqualsIgnoreCase(s[0].typeName, t) then Some(0)
    else match FirstMatch(s[1..], t)
      case None =>
        assert forall j :: 1 <= j < |s| ==> s[j] == s[1..][j - 1];
        None
      case Some(i) => Some(i + 1)
  }

  /** The list after `register(d)`: unchanged on a duplicate type, `d` appended otherwise. */
  function AfterRegister(s: seq<Detector>, d: Detector): seq<Detector>
  {
    if HasType(s, d.typeName) then s else s + [d]
  }

  /** The list after `unregister(t)`: the first match deleted, or unchanged when none matches. */
  function AfterUnregister(s: seq<Detector>, t: string): seq<Detector>
  {
    match FirstMatch(s, t)
    case None => s
    case Some(i) => s[..i] + s[i + 1..]
  }

  /** Registering keeps the type names unique. */
  lemma RegisterKeepsUnique(s: seq<Detector>, d: Detector)
    requires UniqueTypes(s)
    ensures UniqueTypes(AfterRegister(s, d))
  {
  }

  /**
   * Unregistering deletes exactly the first matching entry and keeps all
   * others in their order; it changes nothing when no entry matches.
   */
  lemma UnregisterDeletesFirstMatch(s: seq<Detector>, t: string)
    ensures !HasType(s, t) ==> AfterUnregister(s, t) == s
    ensures HasType(s, t) ==> exists i ::
      && 0 <= i < |s|
      && EqualsIgnoreCase(s[i].typeName, t)
      && (forall j :: 0 <= j < i ==> !EqualsIgnoreCase(s[j].typeName, t))
      && AfterUnregister(s, t) == s[..i] + s[i + 1..]
  {
    if HasType(s, t) {
      var i := FirstMatch(s, t).value;
      assert AfterUnregister(s, t) == s[..i] + s[i + 1..];
    }
  }

  /** Unregistering keeps the type names unique, and then no entry of type `t` is left. */
  lemma UnregisterKeepsUnique(s: seq<Detector>, t: string)
    requires UniqueTypes(s)
    ensures UniqueTypes(AfterUnregister(s, t))
    ensures !HasType(AfterUnregister(s, t), t)
  {
  }

  /** `register(d)` followed by `unregister(d.typeName)` restores the list it started from. */
  lemma RegisterThenUnregister(s: seq<Detector>, d: Detector)
    requires !HasType(s, d.typeName)
    ensures AfterUnregister(AfterRegister(s, d), d.typeName) == s
  {
    var s' := s + [d];
    assert EqualsIgnoreCase(s'[|s|].typeName, d.typeName);
    assert FirstMatch(s', d.typeName) == Some(|s|);
    assert s'[..|s|] == s;
  }

  /**
   * Registering one type twice: the first call succeeds, the second finds a
   * duplicate; after an unregister the type can be registered again.
   */
  lemma RegisterTwiceThenAgain(s: seq<Detector>, d: Detector, e: Detector)
    requires UniqueTypes(s) && !HasType(s, d.typeName)
    requires EqualsIgnoreCase(e.typeName, d.typeName)
    ensures HasType(AfterRegister(s, d), e.typeName)
    ensures AfterRegister(AfterRegister(s, d), e) == AfterRegister(s, d)
    ensures !HasType(AfterUnregister(AfterRegister(s, d), d.typeName), e.typeName)
  {
    var s' := s + [d];
    assert EqualsIgnoreCase(s'[|s|].typeName, e.typeName);
    RegisterThenUnregister(s, d);
  }

  /**
   * The registry: the global `server_detector_list` and its lock.
   * `writerHeld` is the writer side of `data_lock`; the reader side is taken
   * and dropped within one call and leaves no state between calls.  A call
   * that would take the lock while the writer side is held blocks forever,
   * so such calls require `!writerHeld`.
   */
  class Registry {
    var entries: seq<Detector>
    var writerHeld: bool

    ghost predicate Valid()
      reads this
    {
      UniqueTypes(entries)
    }

    /** The registry as `plugin_api_init` leaves it: empty and unlocked. */
    constructor ()
      ensures Valid() && entries == [] && !writerHeld
    {
      entries, writerHeld := [], false;
    }

    /** The index loop shared by register and unregister: the first case-insensitive match, or -1. */
    method IndexOfType(t: string) returns (index: int)
      ensures index == -1 <==> !HasType(entries, t)
      ensures index != -1 ==> FirstMatch(entries, t) == Some(index)
    {
      var i := 0;
      while i < |entries|
        invariant 0 <= i <= |entries|
        invariant forall j :: 0 <= j < i ==> !EqualsIgnoreCase(entries[j].typeName, t)
      {
        if EqualsIgnoreCase(entries[i].typeName, t) {
          return i;
        }
        i := i + 1;
      }
      return -1;
    }

    /** `register_server_detector_i` as written: the duplicate path returns with the writer lock held. */
    method RegisterAsWritten(d: Detector) returns (status: int)
      requires Valid() && !writerHeld
      modifies this
      ensures Valid()
      ensures status == (if HasType(old(entries), d.typeName) then -1 else 0)
      ensures entries == AfterRegister(old(entries), d)
      ensures writerHeld <==> status == -1
    {
      writerHeld := true;
      var i := IndexOfType(d.typeName);
      if i != -1 {
        return -1;
      }
      entries := entries + [d];
      writerHeld := false;
      return 0;
    }

    /** `register_server_detector_i` with the writer lock released on every path. */
    method Register(d: Detector) returns (status: int)
      requires Valid() && !writerHeld
      modifies this
      ensures Valid() && !writerHeld
      ensures status == (if HasType(old(entries), d.typeName) then -1 else 0)
      ensures entries == AfterRegister(old(entries), d)
    {
      writerHeld := true;
      var i := IndexOfType(d.typeName);
      if i != -1 {
        writerHeld := false;
        return -1;
      }
      entries := entries + [d];
      writerHeld := false;
      return 0;
    }

    /** `unregister_server_detector_i` as written: the success path returns with the writer lock held. */
    method UnregisterAsWritten(t: string) returns (status: int)
      requires Valid() && !writerHeld
      modifies this
      ensures Valid()
      ensures status == (if HasType(old(entries), t) then 0 else -1)
      ensures entries == AfterUnregister(old(entries), t)
      ensures writerHeld <==> status == 0
    {
      writerHeld := true;
      var i := IndexOfType(t);
      if i != -1 {
        UnregisterKeepsUnique(entries, t);
        entries := entries[..i] + entries[i + 1..];
        return 0;
      }
      writerHeld := false;
      return -1;
    }

    /** `unregister_server_detector_i` with the writer lock released on every path. */
    method Unregister(t: string) returns (status: int)
      requires Valid() && !writerHeld
      modifies this
      ensures Valid() && !writerHeld
      ensures status == (if HasType(old(entries), t) then 0 else -1)
      ensures entries == AfterUnregister(old(entries), t)
    {
      writerHeld := true;
      var i := IndexOfType(t);
      if i != -1 {
        UnregisterKeepsUnique(entries, t);
        entries := entries[..i] + entries[i + 1..];
        writerHeld := false;
        return 0;
      }
      writerHeld := false;
      return -1;
    }

    /**
     * `get_server_detectors_i`: a new list built by appending every entry in
     * order under the reader lock.  Being a value, it does not follow later
     * registrations or unregistrations.
     */
    method GetServerDetectors() returns (detectors: seq<Detector>)
      requires !writerHeld
      ensures detectors == entries
    {
      detectors := [];
      var i := 0;
      while i < |entries|
        invariant 0 <= i <= |entries|
        invariant detectors == entries[..i]
      {
        detectors := detectors + [entries[i]];
        i := i + 1;
      }
    }
  }

  /** A snapshot keeps the registry's contents at the time it was taken, whatever happens afterwards. */
  method SnapshotIsPointInTime(r: Registry, d: Detector, t: string) returns (snapshot: seq<Detector>)
    requires r.Valid() && !r.writerHeld
    modifies r
    ensures snapshot == old(r.entries)
    ensures r.entries == AfterUnregister(AfterRegister(old(r.entries), d), t)
  {
    snapshot := r.GetServerDetectors();
    var _ := r.Register(d);
    var _ := r.Unregister(t);
  }

  /** Register, register again, unregister, register: success, duplicate, success, success. */
  method RegisterCycle(r: Registry, d: Detector) returns (s1: int, s2: int, s3: int, s4: int)
    requires r.Valid() && !r.writerHeld && !HasType(r.entries, d.typeName)
    modifies r
    ensures s1 == 0 && s2 == -1 && s3 == 0 && s4 == 0
    ensures r.entries == old(r.entries) + [d] && !r.writerHeld
  {
    RegisterTwiceThenAgain(r.entries, d, d);
    s1 := r.Register(d);
    s2 := r.Register(d);
    s3 := r.Unregister(d.typeName);
    s4 := r.Register(d);
  }

  /** After a duplicate registration as written, the writer lock stays held: every later register, unregister or snapshot call from another thread blocks. */
  method DuplicateRegisterLeaksLock(d: Detector) returns (r: Registry, status: int)
    ensures status == -1 && r.entries == [d] && r.writerHeld
  {
    r := new Registry();
    var first := r.RegisterAsWritten(d);
    assert EqualsIgnoreCase(r.entries[0].typeName, d.typeName);
    status := r.RegisterAsWritten(d);
  }

  /** After a successful unregistration as written, the writer lock stays held: every later register, unregister or snapshot call from another thread blocks. */
  method UnregisterLeaksLock(d: Detector) returns (r: Registry, status: int)
    ensures status == 0 && r.entries == [] && r.writerHeld
  {
    r := new Registry();
    var first := r.RegisterAsWritten(d);
    status := r.UnregisterAsWritten(d.typeName);
  }

  /** With the lock released on every path, a duplicate registration leaves the registry usable. */
  method DuplicateRegisterReleasesLock(d: Detector) returns (r: Registry, status: int)
    ensures status == -1 && r.entries == [d] && !r.writerHeld
  {
    r := new Registry();
    var first := r.Register(d);
    assert EqualsIgnoreCase(r.entries[0].typeName, d.typeName);
    status := r.Register(d);
  }
}
