/** The hook layer of NoTruth/NoTruth.cpp: the NtQuerySystemInformation
    handler that hides cmd.exe from the process listing, the pool-tag
    formatter, the lookup of a hook's original function, and the export
    enumeration with its forwarder check. */
module NoTruth {
  import opened Base
  import VmBits

  // ---------------------------------------------------------------------
  // The process listing

  /** SystemProcessInformation, the information class the handler filters. */
  const SystemProcessInformation: nat := 5

  /** One SYSTEM_PROCESS_INFORMATION record: the offset from this record
      to the next one (0 for the last), counted in records, and the image
      name up to its terminator. */
  datatype Entry = Entry(nextEntryOffset: nat, imageName: seq<char>)

  /** Following the offsets from record i stays inside the buffer and ends
      at a record whose offset is 0. */
  ghost predicate Linked(s: seq<Entry>, i: nat)
    decreases |s| - i
  {
    && i < |s|
    && (s[i].nextEntryOffset != 0 ==> i + s[i].nextEntryOffset < |s| && Linked(s, i + s[i].nextEntryOffset))
  }

  /** The records reachable from record i, in listing order. */
  ghost function Chain(s: seq<Entry>, i: nat): (c: seq<nat>)
    requires Linked(s, i)
    decreases |s| - i
    ensures |c| >= 1 && c[0] == i
  {
    if s[i].nextEntryOffset == 0 then [i] else [i] + Chain(s, i + s[i].nextEntryOffset)
  }

  /** The chain from i stays inside the buffer, at or after record i. */
  lemma {:induction false} ChainBounds(s: seq<Entry>, i: nat)
    requires Linked(s, i)
    ensures forall k :: 0 <= k < |Chain(s, i)| ==> i <= Chain(s, i)[k] < |s|
    decreases |s| - i
  {
    if s[i].nextEntryOffset != 0 {
      ChainBounds(s, i + s[i].nextEntryOffset);
    }
  }

  /** towlower on the ASCII letters. */
  function Lower(c: char): char
  {
    if 'A' <= c <= 'Z' then (c as int + 32) as char else c
  }

  /** _wcsnicmp(name, L"cmd.exe", 7) == 0: the first seven characters are
      "cmd.exe" in any case; a shorter name meets its terminator first. */
  predicate IsCmd(name: seq<char>)
  {
    |name| >= 7 && forall k :: 0 <= k < 7 ==> Lower(name[k]) == "cmd.exe"[k]
  }

  /** The records of p, in order, whose image name is not cmd.exe. */
  ghost function Kept(s: seq<Entry>, p: seq<nat>): seq<nat>
  {
    if |p| == 0 then []
    else (if p[0] < |s| && IsCmd(s[p[0]].imageName) then [] else [p[0]]) + Kept(s, p[1..])
  }

  /** The records of p with a name other than cmd.exe are exactly those Kept keeps. */
  lemma {:induction false} KeptMembers(s: seq<Entry>, p: seq<nat>, x: nat)
    requires forall k :: 0 <= k < |p| ==> p[k] < |s|
    ensures x in Kept(s, p) <==> x in p && !IsCmd(s[x].imageName)
  {
    if |p| > 0 {
      KeptMembers(s, p[1..], x);
      assert p == [p[0]] + p[1..];
    }
  }

  /** Kept keeps listing order: it picks from a strictly increasing chain
      a strictly increasing subsequence. */
  lemma {:induction false} KeptIncreasing(s: seq<Entry>, p: seq<nat>)
    requires forall k :: 0 <= k < |p| ==> p[k] < |s|
    requires forall k, l :: 0 <= k < l < |p| ==> p[k] < p[l]
    ensures forall k, l :: 0 <= k < l < |Kept(s, p)| ==> Kept(s, p)[k] < Kept(s, p)[l]
  {
    if |p| > 0 {
      var q := p[1..];
      var t := Kept(s, q);
      KeptIncreasing(s, q);
      forall y | y in t
        ensures p[0] < y
      {
        KeptMembers(s, q, y);
        var m :| 0 <= m < |q| && q[m] == y;
        assert p[m + 1] == y;
      }
      if !IsCmd(s[p[0]].imageName) {
        var r := Kept(s, p);
        assert r == [p[0]] + t;
        forall k, l | 0 <= k < l < |r|
          ensures r[k] < r[l]
        {
          assert r[l] == t[l - 1] && t[l - 1] in t;
          if k > 0 {
            assert r[k] == t[k - 1];
          }
        }
      }
    }
  }

  /** The offset of record i is not 0 and leads to record j. */
  ghost predicate Step(s: seq<Entry>, i: nat, j: nat)
    requires i < |s|
  {
    s[i].nextEntryOffset != 0 && j == i + s[i].nextEntryOffset
  }

  /** p is a walk along the offsets: each record's offset leads to the next. */
  ghost predicate Path(s: seq<Entry>, p: seq<nat>)
  {
    && (forall k :: 0 <= k < |p| ==> p[k] < |s|)
    && (forall k :: 0 <= k < |p| - 1 ==> Step(s, p[k], p[k + 1]))
  }

  /** A walk ending where a chain starts is the beginning of the chain from its first record. */
  lemma PathChain(s: seq<Entry>, p: seq<nat>)
    requires |p| >= 1 && Path(s, p) && Linked(s, p[|p| - 1])
    ensures Linked(s, p[0]) && Chain(s, p[0]) == p[..|p| - 1] + Chain(s, p[|p| - 1])
  {
    PathChainFrom(s, p, 0);
    assert p[0..|p| - 1] == p[..|p| - 1];
  }

  /** The same from record j of the walk on, by induction on the records left. */
  lemma {:induction false} PathChainFrom(s: seq<Entry>, p: seq<nat>, j: nat)
    requires j < |p| && Path(s, p) && Linked(s, p[|p| - 1])
    ensures Linked(s, p[j]) && Chain(s, p[j]) == p[j..|p| - 1] + Chain(s, p[|p| - 1])
    decreases |p| - j
  {
    if j < |p| - 1 {
      PathChainFrom(s, p, j + 1);
      assert Step(s, p[j], p[j + 1]);
      assert Chain(s, p[j]) == [p[j]] + Chain(s, p[j + 1]);
      SliceCons(p, j, |p| - 1, Chain(s, p[|p| - 1]));
    }
  }

  /** Splitting the first element off a slice followed by a tail. */
  lemma SliceCons(p: seq<nat>, j: nat, e: nat, c: seq<nat>)
    requires j < e <= |p|
    ensures p[j..e] + c == [p[j]] + (p[j + 1..e] + c)
  {
    assert p[j..e] == [p[j]] + p[j + 1..e];
  }

  /** The chain from i reads only the records from i on. */
  lemma {:induction false} ChainFrame(s: seq<Entry>, t: seq<Entry>, i: nat)
    requires |s| == |t| && Linked(s, i)
    requires forall j :: i <= j < |s| ==> s[j] == t[j]
    ensures Linked(t, i) && Chain(t, i) == Chain(s, i)
    decreases |s| - i
  {
    if s[i].nextEntryOffset != 0 {
      ChainFrame(s, t, i + s[i].nextEntryOffset);
    }
  }

  /** What the unlinking loop keeps, with s the listing it started from
      and t the current one: done are the records kept so far, ending at
      next, the record the loop stands on; rest are the records after next
      still to be examined, which are those of s. */
  ghost predicate Unlinking(s: seq<Entry>, t: seq<Entry>, done: seq<nat>, rest: seq<nat>, next: nat)
  {
    && next < |t| == |s| && Linked(s, 0)
    && |done| >= 1 && done[0] == 0 && done[|done| - 1] == next
    && Path(t, done) && (forall k :: 0 <= k < |done| - 1 ==> done[k] < next)
    && Linked(t, next) && Chain(t, next) == [next] + rest
    && (forall k :: 0 <= k < |rest| ==> next < rest[k] < |s|)
    && (forall j :: next < j < |t| ==> t[j] == s[j])
    && (forall j :: 0 <= j < |t| ==> t[j].imageName == s[j].imageName)
    && [0] + Kept(s, Chain(s, 0)[1..]) == done + Kept(s, rest)
  }

  /** The entry at the start: nothing examined yet. */
  lemma UnlinkStart(s: seq<Entry>)
    requires Linked(s, 0)
    ensures Unlinking(s, s, [0], Chain(s, 0)[1..], 0)
  {
    var c := Chain(s, 0);
    assert c == [0] + c[1..];
    if s[0].nextEntryOffset != 0 {
      ChainStep(s, 0);
    }
  }

  /** The chain from a record whose offset is not 0 goes on with the chain
      from the record the offset leads to. */
  lemma ChainStep(t: seq<Entry>, next: nat)
    requires Linked(t, next) && t[next].nextEntryOffset != 0
    ensures next + t[next].nextEntryOffset < |t| && Linked(t, next + t[next].nextEntryOffset)
    ensures Chain(t, next)[1..] == Chain(t, next + t[next].nextEntryOffset)
    ensures forall k :: 1 <= k < |Chain(t, next)| ==> next < Chain(t, next)[k] < |t|
  {
    ChainBounds(t, next + t[next].nextEntryOffset);
  }

  /** The record after next is not cmd.exe: the loop moves on to it. */
  lemma UnlinkSkip(s: seq<Entry>, t: seq<Entry>, done: seq<nat>, rest: seq<nat>, next: nat)
    requires Unlinking(s, t, done, rest, next) && t[next].nextEntryOffset != 0
    requires !IsCmd(t[next + t[next].nextEntryOffset].imageName)
    ensures |rest| >= 1 && rest[0] == next + t[next].nextEntryOffset
    ensures Unlinking(s, t, done + [rest[0]], rest[1..], rest[0])
  {
    var n := next + t[next].nextEntryOffset;
    ChainStep(t, next);
    assert rest == Chain(t, next)[1..];
    if t[n].nextEntryOffset != 0 {
      ChainStep(t, n);
    }
    PathExtend(t, done, n);
    assert rest == [n] + rest[1..];
    KeptStep(s, done, rest);
  }

  /** A walk extended by the record its last offset leads to is a walk. */
  lemma PathExtend(t: seq<Entry>, done: seq<nat>, n: nat)
    requires Path(t, done) && |done| >= 1 && n < |t|
    requires Step(t, done[|done| - 1], n)
    ensures Path(t, done + [n])
  {
    var done' := done + [n];
    forall k | 0 <= k < |done'| - 1
      ensures Step(t, done'[k], done'[k + 1])
    {
      if k < |done| - 1 {
        assert done'[k] == done[k] && done'[k + 1] == done[k + 1];
      }
    }
  }

  /** Moving a kept record from the records ahead to the records done. */
  lemma KeptStep(s: seq<Entry>, done: seq<nat>, rest: seq<nat>)
    requires |rest| >= 1 && forall k :: 0 <= k < |rest| ==> rest[k] < |s|
    requires !IsCmd(s[rest[0]].imageName)
    ensures done + Kept(s, rest) == (done + [rest[0]]) + Kept(s, rest[1..])
  {
    assert Kept(s, rest) == [rest[0]] + Kept(s, rest[1..]);
  }

  /** The entry next takes over when the record after it is unlinked. */
  function Unlinked(t: seq<Entry>, next: nat): Entry
    requires next < |t| && next + t[next].nextEntryOffset < |t|
  {
    var removed := t[next + t[next].nextEntryOffset];
    if removed.nextEntryOffset != 0 then t[next].(nextEntryOffset := t[next].nextEntryOffset + removed.nextEntryOffset)
    else t[next].(nextEntryOffset := 0)
  }

  /** Unlinking the record after next drops it from the chain from next. */
  lemma DropChain(t: seq<Entry>, next: nat)
    requires Linked(t, next) && t[next].nextEntryOffset != 0
    ensures next + t[next].nextEntryOffset < |t| && |Chain(t, next)| >= 2
    ensures Linked(t[next := Unlinked(t, next)], next)
    ensures Chain(t[next := Unlinked(t, next)], next) == [next] + Chain(t, next)[2..]
  {
    var n := next + t[next].nextEntryOffset;
    var t' := t[next := Unlinked(t, next)];
    ChainStep(t, next);
    if t[n].nextEntryOffset != 0 {
      var m := n + t[n].nextEntryOffset;
      ChainStep(t, n);
      ChainFrame(t, t', m);
      assert Chain(t, next)[2..] == Chain(t, n)[1..];
    }
  }

  /** Changing the entry a walk ends at keeps it a walk. */
  lemma PathUpdate(t: seq<Entry>, done: seq<nat>, next: nat, e: Entry)
    requires Path(t, done) && |done| >= 1 && done[|done| - 1] == next < |t|
    requires forall k :: 0 <= k < |done| - 1 ==> done[k] < next
    ensures Path(t[next := e], done)
  {
    var t' := t[next := e];
    forall k | 0 <= k < |done| - 1
      ensures t'[done[k]] == t[done[k]]
    {
    }
  }

  /** The record after next is cmd.exe: it is unlinked and the loop stays on next. */
  lemma UnlinkDrop(s: seq<Entry>, t: seq<Entry>, done: seq<nat>, rest: seq<nat>, next: nat)
    requires Unlinking(s, t, done, rest, next) && t[next].nextEntryOffset != 0
    requires IsCmd(t[next + t[next].nextEntryOffset].imageName)
    ensures |rest| >= 1 && next + t[next].nextEntryOffset < |t|
    ensures Unlinking(s, t[next := Unlinked(t, next)], done, rest[1..], next)
  {
    DropChain(t, next);
    PathUpdate(t, done, next, Unlinked(t, next));
    assert rest == Chain(t, next)[1..];
    assert rest[1..] == Chain(t, next)[2..];
    assert Kept(s, rest) == Kept(s, rest[1..]);
  }

  /** The loop ends on a record with offset 0: the kept records are the listing. */
  lemma UnlinkDone(s: seq<Entry>, t: seq<Entry>, done: seq<nat>, rest: seq<nat>, next: nat)
    requires Unlinking(s, t, done, rest, next) && t[next].nextEntryOffset == 0
    ensures Linked(t, 0) && Chain(t, 0) == [0] + Kept(s, Chain(s, 0)[1..])
    ensures forall j :: 0 <= j < |t| ==> t[j].imageName == s[j].imageName
  {
    assert rest == [];
    assert Kept(s, rest) == [];
    WalkToEnd(t, done);
  }

  /** A walk from record 0 to a record with offset 0 is the whole chain. */
  lemma WalkToEnd(t: seq<Entry>, done: seq<nat>)
    requires Path(t, done) && |done| >= 1 && done[0] == 0
    requires done[|done| - 1] < |t| && t[done[|done| - 1]].nextEntryOffset == 0
    ensures Linked(t, 0) && Chain(t, 0) == done
  {
    var next := done[|done| - 1];
    assert Chain(t, next) == [next];
    PathChain(t, done);
    assert done[..|done| - 1] + [next] == done;
  }

  /** The while loop of NoTruthpHandleNtQuerySystemInformation over a
      listing: each record whose name is cmd.exe is unlinked from its
      predecessor, which then takes over its offset (or 0 when it was the
      last), and the predecessor is examined again. The first record stays,
      the others keep their order, and only offsets change. */
  method UnlinkCmd(a: array<Entry>)
    requires Linked(a[..], 0)
    modifies a
    ensures Linked(a[..], 0)
    ensures Chain(a[..], 0) == [0] + Kept(old(a[..]), Chain(old(a[..]), 0)[1..])
    ensures forall j :: 0 <= j < a.Length ==> a[j].imageName == old(a[j].imageName)
  {
    ghost var s := a[..];
    ghost var done: seq<nat> := [0];
    ghost var rest := Chain(s, 0)[1..];
    UnlinkStart(s);
    var next := 0;
    while a[next].nextEntryOffset != 0
      invariant Unlinking(s, a[..], done, rest, next)
      decreases |rest|
    {
      var curr := next;
      next := curr + a[curr].nextEntryOffset;
      if IsCmd(a[next].imageName) {
        ghost var t := a[..];
        UnlinkDrop(s, t, done, rest, curr);
        if a[next].nextEntryOffset != 0 {
          a[curr] := a[curr].(nextEntryOffset := a[curr].nextEntryOffset + a[next].nextEntryOffset);
        } else {
          a[curr] := a[curr].(nextEntryOffset := 0);
        }
        assert a[curr] == Unlinked(t, curr);
        assert a[..] == t[curr := Unlinked(t, curr)];
        next := curr;
      } else {
        UnlinkSkip(s, a[..], done, rest, curr);
        done := done + [next];
      }
      rest := rest[1..];
    }
    UnlinkDone(s, a[..], done, rest, next);
  }

  /** NoTruthpHandleNtQuerySystemInformation after the original call
      returned original: a failed call or another information class leaves
      the buffer alone; otherwise the cmd.exe records are unlinked. The
      status is always the original one. */
  method HandleNtQuerySystemInformation(informationClass: nat, buffer: array<Entry>, original: bv32)
    returns (status: bv32)
    requires NtSuccess(original) && informationClass == SystemProcessInformation ==> Linked(buffer[..], 0)
    modifies buffer
    ensures status == original
    ensures !NtSuccess(original) || informationClass != SystemProcessInformation ==> buffer[..] == old(buffer[..])
    ensures NtSuccess(original) && informationClass == SystemProcessInformation ==>
              && Linked(buffer[..], 0)
              && Chain(buffer[..], 0) == [0] + Kept(old(buffer[..]), Chain(old(buffer[..]), 0)[1..])
              && forall j :: 0 <= j < buffer.Length ==> buffer[j].imageName == old(buffer[j].imageName)
  {
    status := original;
    if !NtSuccess(original) {
      return;
    }
    if informationClass != SystemProcessInformation {
      return;
    }
    UnlinkCmd(buffer);
  }

  /** What a caller sees in a listing filtered as UnlinkCmd promises: no
      record after the first is named cmd.exe, and every record of the
      original listing not named cmd.exe is still listed. */
  lemma FilteredListing(s: seq<Entry>, t: seq<Entry>)
    requires Linked(s, 0) && Linked(t, 0) && |s| == |t|
    requires forall j :: 0 <= j < |s| ==> t[j].imageName == s[j].imageName
    requires Chain(t, 0) == [0] + Kept(s, Chain(s, 0)[1..])
    ensures forall k :: 1 <= k < |Chain(t, 0)| ==> Chain(t, 0)[k] < |t| && !IsCmd(t[Chain(t, 0)[k]].imageName)
    ensures forall j :: j in Chain(s, 0) ==> j < |s| && (!IsCmd(s[j].imageName) ==> j in Chain(t, 0))
  {
    ChainBounds(s, 0);
    ChainBounds(t, 0);
    var p := Chain(s, 0)[1..];
    forall k | 1 <= k < |Chain(t, 0)|
      ensures !IsCmd(t[Chain(t, 0)[k]].imageName)
    {
      KeptMembers(s, p, Chain(t, 0)[k]);
    }
    forall j | j in Chain(s, 0) && !IsCmd(s[j].imageName)
      ensures j in Chain(t, 0)
    {
      KeptMembers(s, p, j);
      assert Chain(s, 0) == [0] + p;
    }
  }

  // ---------------------------------------------------------------------
  // Pool tags

  /** isprint in the C locale. */
  predicate IsPrint(b: bv8)
  {
    0x20 <= b <= 0x7E
  }

  /** isspace in the C locale. */
  predicate IsSpace(b: bv8)
  {
    b == 0x20 || 0x09 <= b <= 0x0D
  }

  /** How one byte of a tag is shown: itself when printable, '.' otherwise. */
  function TagChar(b: bv8): char
  {
    if IsPrint(b) then b as int as char else '.'
  }

  /** The string NoTruthpTagToString produces: the four bytes of the tag,
      lowest first, and the terminator. */
  function TagString(tag: bv32): seq<char>
  {
    TagText(VmBits.LittleEndian(tag))
  }

  /** Four bytes shown one by one, and the terminator. */
  function TagText(b: seq<bv8>): seq<char>
    requires |b| == 4
  {
    [TagChar(b[0]), TagChar(b[1]), TagChar(b[2]), TagChar(b[3]), '\0']
  }

  /** NoTruthpTagToString: rewrites the bytes of the tag in place (the
      space substitution for a zero byte never fires, since 0 is not a
      space), then formats them with "%c%c%c%c". */
  method TagToString(tag: bv32) returns (str: seq<char>)
    ensures str == TagString(tag)
  {
    var bytes := VmBits.LittleEndian(tag);
    var chars := new bv8[4];
    chars[0], chars[1], chars[2], chars[3] := bytes[0], bytes[1], bytes[2], bytes[3];
    for k := 0 to 4
      invariant forall j :: 0 <= j < 4 ==> chars[j] == if j < k && !IsPrint(bytes[j]) then 0x2E else bytes[j]
    {
      if chars[k] == 0 && IsSpace(chars[k]) {
        chars[k] := 0x20;
      }
      if !IsPrint(chars[k]) {
        chars[k] := 0x2E;
      }
    }
    str := [chars[0] as int as char, chars[1] as int as char, chars[2] as int as char, chars[3] as int as char, '\0'];
  }

  /** A tag byte is shown as a printable character, and a printable
      byte as itself. */
  lemma TagCharOf(b: bv8)
    ensures ' ' <= TagChar(b) <= '~'
    ensures IsPrint(b) ==> TagChar(b) as int == b as int
  {
  }

  /** The string is four printable characters and the terminator. */
  lemma TagStringShape(tag: bv32)
    ensures |TagString(tag)| == 5 && TagString(tag)[4] == '\0'
    ensures forall k :: 0 <= k < 4 ==> ' ' <= TagString(tag)[k] <= '~'
  {
    var b := VmBits.LittleEndian(tag);
    TagCharOf(b[0]);
    TagCharOf(b[1]);
    TagCharOf(b[2]);
    TagCharOf(b[3]);
  }

  /** Printable bytes are told apart by how they are shown. */
  lemma PrintedBytes(b: seq<bv8>, c: seq<bv8>)
    requires |b| == |c| == 4
    requires forall k :: 0 <= k < 4 ==> IsPrint(b[k]) && IsPrint(c[k])
    requires TagText(b) == TagText(c)
    ensures b == c
  {
    forall k | 0 <= k < 4
      ensures b[k] == c[k]
    {
      assert TagText(b)[k] == TagChar(b[k]) && TagText(c)[k] == TagChar(c[k]);
      TagCharOf(b[k]);
      TagCharOf(c[k]);
    }
  }

  /** A tag whose bytes are all printable is spelled out unchanged, so two
      such tags print the same only when they are equal. */
  lemma TagStringInjective(tag: bv32, other: bv32)
    requires forall k :: 0 <= k < 4 ==> IsPrint(VmBits.LittleEndian(tag)[k])
    requires forall k :: 0 <= k < 4 ==> IsPrint(VmBits.LittleEndian(other)[k])
    requires TagString(tag) == TagString(other)
    ensures tag == other
  {
    PrintedBytes(VmBits.LittleEndian(tag), VmBits.LittleEndian(other));
    VmBits.LittleEndianInjective(tag, other);
  }

  // ---------------------------------------------------------------------
  // Hook targets

  /** A ShadowHookTarget: the export it hooks, the handler installed for
      it, and the trampoline that calls the original function (0, a null
      pointer, until installed). */
  datatype HookTarget = HookTarget(targetName: seq<char>, handler: nat, originalCall: nat)

  /** NoTruthpFindOrignal: the original call of the first target whose
      handler is handler, or null (0) when there is none. */
  method FindOriginal(targets: seq<HookTarget>, handler: nat) returns (original: nat)
    ensures (forall i :: 0 <= i < |targets| ==> targets[i].handler != handler) ==> original == 0
    ensures (exists i :: 0 <= i < |targets| && targets[i].handler == handler) ==>
              exists i :: 0 <= i < |targets| && targets[i].handler == handler &&
                          (forall j :: 0 <= j < i ==> targets[j].handler != handler) &&
                          original == targets[i].originalCall
  {
    for i := 0 to |targets|
      invariant forall j :: 0 <= j < i ==> targets[j].handler != handler
    {
      if targets[i].handler == handler {
        return targets[i].originalCall;
      }
    }
    return 0;
  }

  // ---------------------------------------------------------------------
  // Export enumeration

  /** The export data directory of a module (its RVA and size) and the
      export directory tables the callback reads: the export address table
      and the name ordinal table, one ordinal per name. */
  datatype ExportDirectory = ExportDirectory(
    virtualAddress: nat, size: nat, numberOfNames: nat,
    functions: seq<nat>, nameOrdinals: seq<nat>)

  /** The tables describe numberOfNames names, each ordinal naming an entry
      of the export address table. */
  predicate WellFormed(dir: ExportDirectory)
  {
    && |dir.nameOrdinals| == dir.numberOfNames
    && forall i :: 0 <= i < |dir.nameOrdinals| ==> dir.nameOrdinals[i] < |dir.functions|
  }

  /** The address of the export with name index i. */
  function ExportAddress(base: nat, dir: ExportDirectory, i: nat): nat
    requires WellFormed(dir) && i < dir.numberOfNames
  {
    base + dir.functions[dir.nameOrdinals[i]]
  }

  /** UtilIsInBounds: lower <= value <= upper, both ends included. */
  predicate InBounds(value: nat, lower: nat, upper: nat)
  {
    lower <= value <= upper
  }

  /** An export whose address lies inside the export directory
      [base + RVA, base + RVA + size - 1] is a forwarder: the address
      points at the forwarding name (section 6.3 of the PE/COFF
      specification, Export Address Table). */
  predicate IsForwarder(base: nat, dir: ExportDirectory, i: nat)
    requires WellFormed(dir) && i < dir.numberOfNames
  {
    dir.size > 0 && InBounds(ExportAddress(base, dir, i), base + dir.virtualAddress, base + dir.virtualAddress + dir.size - 1)
  }

  /** NoTruthpEnumExportedSymbolsCallback for the export with name index
      i: false without a context, true (skip) for a forwarder; otherwise
      hooked(i) stands for converting the name and installing the hooks of
      the matching targets, which stops the enumeration when an install fails. */
  function ExportCallback(hasContext: bool, base: nat, dir: ExportDirectory, dirBase: nat, dirEnd: nat,
                          hooked: nat -> bool, i: nat): bool
    requires WellFormed(dir) && i < dir.numberOfNames
  {
    if !hasContext then false
    else if InBounds(ExportAddress(base, dir, i), dirBase, dirEnd) then true
    else hooked(i)
  }

  /** The first address of the export directory. */
  function DirectoryStart(base: nat, dir: ExportDirectory): nat
  {
    base + dir.virtualAddress
  }

  /** The last address of a non-empty export directory. */
  function DirectoryEnd(base: nat, dir: ExportDirectory): nat
    requires dir.size > 0
  {
    base + dir.virtualAddress + dir.size - 1
  }

  /** NoTruthpEnumExportedSymbols: an export directory of size 0 or RVA 0
      makes no call; otherwise callback runs on the name indices in order,
      with the directory's first and last address, until it returns false.
      The status is STATUS_SUCCESS either way. */
  method EnumExportedSymbols(base: nat, dir: ExportDirectory, callback: (nat, nat, nat) -> bool)
    returns (status: bv32, calls: nat)
    ensures status == StatusSuccess
    ensures dir.size == 0 || dir.virtualAddress == 0 ==> calls == 0
    ensures dir.size > 0 && dir.virtualAddress > 0 ==>
              && calls <= dir.numberOfNames
              && (forall i :: 0 <= i < calls - 1 ==> callback(i, DirectoryStart(base, dir), DirectoryEnd(base, dir)))
              && (calls < dir.numberOfNames ==> calls > 0 && !callback(calls - 1, DirectoryStart(base, dir), DirectoryEnd(base, dir)))
  {
    status := StatusSuccess;
    if dir.size == 0 || dir.virtualAddress == 0 {
      return status, 0;
    }
    var dirBase := DirectoryStart(base, dir);
    var dirEnd := DirectoryEnd(base, dir);
    calls := 0;
    var i := 0;
    while i < dir.numberOfNames
      invariant i <= dir.numberOfNames && calls == i
      invariant forall j :: 0 <= j < i ==> callback(j, dirBase, dirEnd)
    {
      calls := calls + 1;
      if !callback(i, dirBase, dirEnd) {
        return;
      }
      i := i + 1;
    }
  }

  /** The enumeration NoTruth runs over the kernel's exports, with
      NoTruthpEnumExportedSymbolsCallback: without a context it stops at
      the first name; with one, forwarders never stop it, so it runs to the
      end unless an export that is not a forwarder fails to be hooked, and
      then stops right after that export. */
  method EnumerateForHooks(hasContext: bool, base: nat, dir: ExportDirectory, hooked: nat -> bool)
    returns (status: bv32, calls: nat)
    requires WellFormed(dir)
    ensures status == StatusSuccess
    ensures dir.size == 0 || dir.virtualAddress == 0 ==> calls == 0
    ensures dir.size > 0 && dir.virtualAddress > 0 && !hasContext ==>
              calls == if dir.numberOfNames == 0 then 0 else 1
    ensures dir.size > 0 && dir.virtualAddress > 0 && hasContext ==>
              && calls <= dir.numberOfNames
              && (forall i :: 0 <= i < calls - 1 ==> IsForwarder(base, dir, i) || hooked(i))
              && (calls < dir.numberOfNames ==>
                    calls > 0 && !IsForwarder(base, dir, calls - 1) && !hooked(calls - 1))
  {
    var callback := (i: nat, dirBase: nat, dirEnd: nat) =>
      i < dir.numberOfNames && ExportCallback(hasContext, base, dir, dirBase, dirEnd, hooked, i);
    status, calls := EnumExportedSymbols(base, dir, callback);
    if dir.size > 0 && dir.virtualAddress > 0 {
      var dirBase, dirEnd := DirectoryStart(base, dir), DirectoryEnd(base, dir);
      forall i | 0 <= i < calls - 1
        ensures IsForwarder(base, dir, i) || hooked(i)
      {
        assert callback(i, dirBase, dirEnd);
      }
      if calls > 1 {
        assert callback(0, dirBase, dirEnd);
      }
    }
  }
}
