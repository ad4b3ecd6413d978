/**
 Building the frame list of a USB video streaming interface: nested loops that share one
 cursor over the class-specific descriptors, with a counting mode and a listing mode.
 A descriptor is a record; how its bytes are laid out is only modelled where the source
 bounds reads by `bLength`.
 */
module FrameList {
  import opened Common
  import opened FrameRate

  type uint8 = x: int | 0 <= x < 0x100

  datatype StreamFormat = Yuy2 | Nv12 | MotionJpeg | H265 | H264

  datatype FrameKind = FrameUncompressed | FrameMjpeg | FrameFrameBased | UnknownKind

  /** Byte offset of the first frame interval (USB Video Class frame descriptors); 0 when unknown. */
  function IntervalArrayOffset(kind: FrameKind): nat {
    match kind
    case FrameFrameBased => 26
    case FrameUncompressed => 26
    case FrameMjpeg => 26
    case UnknownKind => 0
  }

  predicate HasContinuousIntervals(kind: FrameKind, bLength: uint8) {
    IntervalArrayOffset(kind) > 0 && bLength >= IntervalArrayOffset(kind) + 12
  }

  /**
   The declared number of discrete intervals, clamped to what `bLength` can hold: every counted
   dword ends within the descriptor, and no further declared one would.
   */
  function DiscreteIntervalCount(kind: FrameKind, bLength: uint8, declared: uint8): (count: uint8)
    ensures count <= declared
    ensures count > 0 ==> 0 < IntervalArrayOffset(kind) && IntervalArrayOffset(kind) + 4 * count <= bLength
    ensures 0 < IntervalArrayOffset(kind) && count < declared ==> IntervalArrayOffset(kind) + 4 * (count + 1) > bLength
  {
    if declared == 0 then 0
    else
      var offset := IntervalArrayOffset(kind);
      if offset == 0 || bLength <= offset then 0
      else
        var avail := (bLength - offset) / 4;
        if declared < avail then declared else avail
  }

  type uint16 = x: int | 0 <= x < 0x10000

  /**
   `uvc_desc_get_safe_wTotalLength`: the length that may be parsed from the header. It keeps within
   both the header's own claim and the configuration descriptor, and is the largest that does.
   */
  function SafeTotalLength(configStart: nat, configTotal: uint16, headerStart: nat, headerTotal: uint16): (length: uint16)
    ensures length <= headerTotal
    ensures length > 0 ==> configStart < headerStart && headerStart + length <= configStart + configTotal
    ensures configStart < headerStart && length < headerTotal ==> headerStart + length >= configStart + configTotal
  {
    if headerStart <= configStart then 0
    else
      var offset := headerStart - configStart;
      if offset >= configTotal then 0
      else
        var remaining := configTotal - offset;
        if headerTotal > remaining then remaining else headerTotal
  }

  /** `dwords` are the interval dwords that lie wholly within `bLength`; reading any other is not possible here. */
  datatype Frame = Frame(kind: FrameKind, bLength: uint8, width: int, height: int, defaultInterval: uint32,
                         intervalType: uint8, dwords: seq<uint32>)

  predicate Sized(f: Frame) {
    && f.kind != UnknownKind
    && |f.dwords| == if f.bLength < IntervalArrayOffset(f.kind) then 0 else (f.bLength - IntervalArrayOffset(f.kind)) / 4
  }

  type FrameDescriptor = f: Frame | Sized(f) witness Frame(FrameMjpeg, 0, 0, 0, 0, 0, [])

  /** `parsed` is None for a format the driver does not know. */
  datatype Descriptor =
    | FormatDescriptor(parsed: Option<StreamFormat>, numFrames: uint8)
    | FrameDesc(frame: FrameDescriptor)
    | OtherDescriptor

  datatype Intervals = Unset | Continuous(min: uint32, max: uint32, step: uint32) | Discrete(interval: seq<uint32>)

  datatype FrameInfo = FrameInfo(format: StreamFormat, hRes: int, vRes: int, defaultInterval: uint32,
                                 intervalType: uint8, intervals: Intervals)

  /** What listing mode records of a frame; `slots` is the configured size of the interval array. */
  function Info(format: StreamFormat, f: FrameDescriptor, slots: nat): FrameInfo {
    if f.intervalType == 0 then
      FrameInfo(format, f.width, f.height, f.defaultInterval, 0,
                if HasContinuousIntervals(f.kind, f.bLength) then ContinuousOf(f) else Unset)
    else
      var count := DiscreteIntervalCount(f.kind, f.bLength, f.intervalType);
      FrameInfo(format, f.width, f.height, f.defaultInterval, count, Discrete(FirstDwords(f, count, slots)))
  }

  function ContinuousOf(f: FrameDescriptor): Intervals
    requires HasContinuousIntervals(f.kind, f.bLength)
  {
    Continuous(f.dwords[0], f.dwords[1], f.dwords[2])
  }

  function FirstDwords(f: FrameDescriptor, count: uint8, slots: nat): seq<uint32>
    requires count <= DiscreteIntervalCount(f.kind, f.bLength, f.intervalType)
  {
    f.dwords[..Min(count, slots)]
  }

  /**
   What a list entry must show of its frame, read off the descriptor: the intervals begin at byte 26 and take four bytes
   each. A continuous frame shows its three dwords exactly when they lie within `bLength`; a discrete one counts as many of
   its declared intervals as do, and records those that its slots can hold.
   */
  ghost predicate Shows(info: FrameInfo, format: StreamFormat, f: FrameDescriptor, slots: nat) {
    && info.format == format && info.hRes == f.width && info.vRes == f.height && info.defaultInterval == f.defaultInterval
    && (if f.intervalType == 0 then
          && info.intervalType == 0
          && info.intervals == (if f.bLength >= 26 + 12 then Continuous(f.dwords[0], f.dwords[1], f.dwords[2]) else Unset)
        else
          && info.intervalType <= f.intervalType
          && (info.intervalType > 0 ==> 26 + 4 * info.intervalType <= f.bLength)
          && (info.intervalType < f.intervalType ==> 26 + 4 * (info.intervalType + 1) > f.bLength)
          && info.intervals.Discrete?
          && |info.intervals.interval| == (if info.intervalType < slots then info.intervalType else slots)
          && forall i :: 0 <= i < |info.intervals.interval| ==> i < |f.dwords| && info.intervals.interval[i] == f.dwords[i])
  }

  lemma InfoShows(format: StreamFormat, f: FrameDescriptor, slots: nat)
    ensures Shows(Info(format, f, slots), format, f, slots)
  {
    assert f.kind != UnknownKind && IntervalArrayOffset(f.kind) == 26;
  }

  method FillFrameInfo(format: StreamFormat, f: FrameDescriptor, slots: nat) returns (info: FrameInfo)
    ensures Shows(info, format, f, slots)
    ensures info == Info(format, f, slots)
  {
    InfoShows(format, f, slots);
    info := FrameInfo(format, f.width, f.height, f.defaultInterval, f.intervalType, Unset);
    if f.intervalType == 0 {
      if HasContinuousIntervals(f.kind, f.bLength) {
        info := info.(intervals := Continuous(f.dwords[0], f.dwords[1], f.dwords[2]));
      }
    } else {
      var count := DiscreteIntervalCount(f.kind, f.bLength, f.intervalType);
      var copied: seq<uint32> := [];
      for i := 0 to Min(count, slots)
        invariant i <= |f.dwords| && copied == f.dwords[..i]
      {
        copied := copied + [f.dwords[i]];
      }
      info := info.(intervalType := count, intervals := Discrete(copied));
    }
  }

  // ----- the capacity guard -----

  /** `frame_index > *list_size - 1` in 32-bit unsigned arithmetic. */
  predicate AtCapacity(frameIndex: uint32, listSize: uint32) {
    frameIndex > (listSize - 1) % 0x1_0000_0000
  }

  /** The guard means "the list is full" exactly for a non-empty list; for size 0 it never stops. */
  lemma CapacityGuard(listSize: uint32)
    ensures (forall i: uint32 :: AtCapacity(i, listSize) <==> i >= listSize) <==> listSize >= 1
  {
    if listSize == 0 {
      assert !AtCapacity(0, 0);
    }
  }

  // ----- what the two modes compute -----

  predicate Defined(d: Descriptor) {
    d.FormatDescriptor? && d.parsed.Some?
  }

  function CountMode(s: seq<Descriptor>): nat {
    if s == [] then 0 else (if Defined(s[0]) then s[0].numFrames else 0) + CountMode(s[1..])
  }

  /** Listing mode outside a format, with room for that many more frames. */
  function ListMode(s: seq<Descriptor>, room: nat, slots: nat): seq<FrameInfo>
    decreases |s|
  {
    if s == [] then []
    else if Defined(s[0]) then ListFrames(s[0].parsed.value, s[1..], room, slots)
    else ListMode(s[1..], room, slots)
  }

  /** Listing mode directly after a format or one of its frames; the descriptor that ends it is consumed. */
  function ListFrames(format: StreamFormat, s: seq<Descriptor>, room: nat, slots: nat): seq<FrameInfo>
    decreases |s|
  {
    if s == [] then []
    else if !s[0].FrameDesc? || room == 0 then ListMode(s[1..], room, slots)
    else [Info(format, s[0].frame, slots)] + ListFrames(format, s[1..], room - 1, slots)
  }

  /** The inner loop: frames of one format, up to and including the descriptor that ends them. */
  method ListFormatFrames(stream: seq<Descriptor>, from: nat, format: StreamFormat, slots: nat,
                          list: array<FrameInfo>, listSize: uint32, filled: nat) returns (pos: nat, frameIndex: nat)
    requires from <= |stream| && filled <= listSize == list.Length && 1 <= listSize
    modifies list
    ensures from <= pos <= |stream| && filled <= frameIndex <= listSize
    ensures list[..frameIndex] + ListMode(stream[pos..], listSize - frameIndex, slots)
            == old(list[..filled]) + ListFrames(format, stream[from..], listSize - filled, slots)
    ensures forall k :: frameIndex <= k < list.Length ==> list[k] == old(list[k])
  {
    pos, frameIndex := from, filled;
    CapacityGuard(listSize);
    ghost var goal := old(list[..filled]) + ListFrames(format, stream[from..], listSize - filled, slots);
    while pos < |stream|
      invariant from <= pos <= |stream| && filled <= frameIndex <= listSize
      invariant list[..frameIndex] + ListFrames(format, stream[pos..], listSize - frameIndex, slots) == goal
      invariant forall k :: frameIndex <= k < list.Length ==> list[k] == old(list[k])
    {
      var current := stream[pos];
      assert stream[pos..][1..] == stream[pos + 1..];
      pos := pos + 1;
      if !current.FrameDesc? {
        return;
      }
      if AtCapacity(frameIndex, listSize) {
        return;
      }
      ghost var before := list[..frameIndex];
      var info := FillFrameInfo(format, current.frame, slots);
      list[frameIndex] := info;
      frameIndex := frameIndex + 1;
      assert list[..frameIndex] == before + [info];
    }
  }

  /** `uvc_desc_get_frame_list`: null counts, otherwise the array is filled and the number of entries returned. */
  method GetFrameList(stream: seq<Descriptor>, list: array?<FrameInfo>, listSize: uint32, slots: nat) returns (size: nat)
    requires list != null ==> 1 <= listSize == list.Length
    modifies if list == null then {} else {list}
    ensures list == null ==> size == CountMode(stream)
    ensures list != null ==> size <= listSize && list[..size] == ListMode(stream, listSize, slots)
    ensures list != null ==> exists at :: ListsFrames(stream, list[..size], at, slots)
    ensures list != null ==> forall k :: size <= k < list.Length ==> list[k] == old(list[k])
  {
    var pos, numFrame, frameIndex := 0, 0, 0;
    while pos < |stream|
      invariant 0 <= pos <= |stream|
      invariant list == null ==> numFrame + CountMode(stream[pos..]) == CountMode(stream)
      invariant list != null ==> 0 <= frameIndex <= listSize && forall k :: frameIndex <= k < list.Length ==> list[k] == old(list[k])
      invariant list != null ==> list[..frameIndex] + ListMode(stream[pos..], listSize - frameIndex, slots) == ListMode(stream, listSize, slots)
      decreases |stream| - pos
    {
      var current := stream[pos];
      assert stream[pos..][1..] == stream[pos + 1..];
      pos := pos + 1;
      if !current.FormatDescriptor? || current.parsed.None? {
        continue;
      }
      numFrame := numFrame + current.numFrames;
      if list == null {
        continue;
      }
      pos, frameIndex := ListFormatFrames(stream, pos, current.parsed.value, slots, list, listSize, frameIndex);
    }
    size := if list != null then frameIndex else numFrame;
    ListShowsFrames(stream, listSize, slots);
  }

  // ----- what a list shows -----

  /** The listing, from either side of the inner loop. */
  function Listing(s: seq<Descriptor>, format: Option<StreamFormat>, room: nat, slots: nat): seq<FrameInfo> {
    if format.Some? then ListFrames(format.value, s, room, slots) else ListMode(s, room, slots)
  }

  /** Position i comes after a format of this kind, with nothing but frames in between. */
  ghost predicate Under(s: seq<Descriptor>, i: nat, format: StreamFormat) {
    exists p :: 0 <= p < i <= |s| && Defined(s[p]) && s[p].parsed == Some(format) && forall q :: p < q < i ==> s[q].FrameDesc?
  }

  /** The entry shows the frame at this position, under the format that frame belongs to. */
  ghost predicate ShowsAt(s: seq<Descriptor>, i: nat, info: FrameInfo, slots: nat) {
    i < |s| && s[i].FrameDesc? && Under(s, i, info.format) && Shows(info, info.format, s[i].frame, slots)
  }

  /** Entry k shows the frame at position at[k]; the positions follow the stream. */
  ghost predicate ListsFrames(s: seq<Descriptor>, list: seq<FrameInfo>, at: seq<nat>, slots: nat) {
    && |at| == |list|
    && (forall j, k :: 0 <= j < k < |at| ==> at[j] < at[k])
    && (forall k :: 0 <= k < |at| ==> ShowsAt(s, at[k], list[k], slots))
  }

  lemma StaysUnder(s: seq<Descriptor>, i: nat, format: StreamFormat)
    requires i < |s| && Under(s, i, format) && s[i].FrameDesc?
    ensures Under(s, i + 1, format)
  {
    var p :| 0 <= p < i && Defined(s[p]) && s[p].parsed == Some(format) && forall q :: p < q < i ==> s[q].FrameDesc?;
    assert forall q :: p < q < i + 1 ==> s[q].FrameDesc?;
  }

  lemma UnderFormat(s: seq<Descriptor>, i: nat)
    requires i < |s| && Defined(s[i])
    ensures Under(s, i + 1, s[i].parsed.value)
  {
  }

  lemma ListingUnfolds(s: seq<Descriptor>, from: nat, format: Option<StreamFormat>, room: nat, slots: nat)
    requires from < |s|
    ensures Listing(s[from..], format, room, slots) ==
            if format.Some? && s[from].FrameDesc? && room > 0 then
              [Info(format.value, s[from].frame, slots)] + Listing(s[from + 1..], format, room - 1, slots)
            else Listing(s[from + 1..], if format.None? && Defined(s[from]) then s[from].parsed else None, room, slots)
  {
    assert s[from..][1..] == s[from + 1..];
  }

  /** A frame that lies before all others of a list comes first. */
  lemma FrameFirst(s: seq<Descriptor>, from: nat, format: StreamFormat, rest: seq<FrameInfo>, at: seq<nat>, slots: nat)
    requires from < |s| && s[from].FrameDesc? && Under(s, from, format)
    requires ListsFrames(s, rest, at, slots) && forall k :: 0 <= k < |at| ==> from < at[k]
    ensures ListsFrames(s, [Info(format, s[from].frame, slots)] + rest, [from] + at, slots)
  {
    InfoShows(format, s[from].frame, slots);
    assert ShowsAt(s, from, Info(format, s[from].frame, slots), slots);
  }

  lemma {:induction false} ListingShows(s: seq<Descriptor>, from: nat, format: Option<StreamFormat>, room: nat, slots: nat) returns (at: seq<nat>)
    requires from <= |s| && (format.Some? ==> Under(s, from, format.value))
    ensures ListsFrames(s, Listing(s[from..], format, room, slots), at, slots)
    ensures forall k :: 0 <= k < |at| ==> from <= at[k]
    decreases |s| - from
  {
    if from == |s| {
      at := [];
    } else {
      ListingUnfolds(s, from, format, room, slots);
      if format.Some? && s[from].FrameDesc? && room > 0 {
        StaysUnder(s, from, format.value);
        at := ListingShows(s, from + 1, format, room - 1, slots);
        FrameFirst(s, from, format.value, Listing(s[from + 1..], format, room - 1, slots), at, slots);
        at := [from] + at;
      } else if format.None? && Defined(s[from]) {
        UnderFormat(s, from);
        at := ListingShows(s, from + 1, s[from].parsed, room, slots);
      } else {
        at := ListingShows(s, from + 1, None, room, slots);
      }
    }
  }

  /** Every entry of a list shows a frame of the stream under the format it belongs to, in the order of the stream. */
  lemma ListShowsFrames(s: seq<Descriptor>, listSize: nat, slots: nat)
    ensures exists at :: ListsFrames(s, ListMode(s, listSize, slots), at, slots)
  {
    var at := ListingShows(s, 0, None, listSize, slots);
    assert s[0..] == s;
  }

  // ----- listing against counting -----

  /** The frames that directly follow a known format, in stream order: what a frame list should hold. */
  function OwnedFrames(s: seq<Descriptor>, owner: Option<StreamFormat>, slots: nat): seq<FrameInfo> {
    if s == [] then []
    else match s[0]
      case FrameDesc(f) =>
        (if owner.Some? then [Info(owner.value, f, slots)] else []) + OwnedFrames(s[1..], owner, slots)
      case FormatDescriptor(parsed, _) => OwnedFrames(s[1..], parsed, slots)
      case OtherDescriptor => OwnedFrames(s[1..], None, slots)
  }

  function LeadingFrames(s: seq<Descriptor>): nat {
    if s == [] || !s[0].FrameDesc? then 0 else 1 + LeadingFrames(s[1..])
  }

  /** Each known format adds the number it declares to the count, wherever it stands; nothing else does. */
  lemma {:induction false} CountGrows(s: seq<Descriptor>, d: Descriptor)
    ensures CountMode([]) == 0
    ensures CountMode(s + [d]) == CountMode(s) + (match d case FormatDescriptor(Some(_), declared) => declared case _ => 0)
  {
    if s == [] {
      assert s + [d] == [d] && [d][1..] == [];
    } else {
      assert (s + [d])[1..] == s[1..] + [d];
      CountGrows(s[1..], d);
    }
  }

  /** Every known format is followed by exactly the number of frames it declares. */
  ghost predicate DeclaredExactly(s: seq<Descriptor>) {
    forall i :: 0 <= i < |s| && Defined(s[i]) ==> LeadingFrames(s[i + 1..]) == s[i].numFrames
  }

  /**
   The descriptor that ends a run of frames is consumed. This holds when none of those consumed is a
   known format that has frames of its own.
   */
  predicate SwallowsNothing(s: seq<Descriptor>, inFormat: bool) {
    if s == [] then true
    else if inFormat && s[0].FrameDesc? then SwallowsNothing(s[1..], true)
    else if inFormat then (Defined(s[0]) ==> LeadingFrames(s[1..]) == 0) && SwallowsNothing(s[1..], false)
    else SwallowsNothing(s[1..], Defined(s[0]))
  }

  lemma TailDeclared(s: seq<Descriptor>)
    requires DeclaredExactly(s) && s != []
    ensures DeclaredExactly(s[1..])
    ensures Defined(s[0]) ==> LeadingFrames(s[1..]) == s[0].numFrames
  {
    forall i | 0 <= i < |s[1..]| && Defined(s[1..][i]) ensures LeadingFrames(s[1..][i + 1..]) == s[1..][i].numFrames {
      assert s[1..][i + 1..] == s[i + 2..] && s[1..][i] == s[i + 1];
    }
  }

  lemma {:induction false} OwnedIsCounted(s: seq<Descriptor>, owner: Option<StreamFormat>, slots: nat)
    requires DeclaredExactly(s)
    ensures |OwnedFrames(s, owner, slots)| == (if owner.Some? then LeadingFrames(s) else 0) + CountMode(s)
  {
    if s != [] {
      TailDeclared(s);
      var next := match s[0] case FrameDesc(_) => owner case FormatDescriptor(parsed, _) => parsed case OtherDescriptor => None;
      OwnedIsCounted(s[1..], next, slots);
    }
  }

  lemma {:induction false} OwnedWithoutOwner(s: seq<Descriptor>, owner: Option<StreamFormat>, slots: nat)
    ensures |OwnedFrames(s, owner, slots)| == |OwnedFrames(s, None, slots)| + (if owner.Some? then LeadingFrames(s) else 0)
    ensures LeadingFrames(s) == 0 ==> OwnedFrames(s, owner, slots) == OwnedFrames(s, None, slots)
  {
    if s != [] && s[0].FrameDesc? {
      OwnedWithoutOwner(s[1..], owner, slots);
    }
  }

  /** With room for everything the listing is never longer than it should be, and is right exactly when nothing is swallowed. */
  lemma {:induction false} ListingAgainstOwned(s: seq<Descriptor>, format: Option<StreamFormat>, room: nat, slots: nat)
    requires room >= |s|
    ensures SwallowsNothing(s, format.Some?) ==> Listing(s, format, room, slots) == OwnedFrames(s, format, slots)
    ensures !SwallowsNothing(s, format.Some?) ==> |Listing(s, format, room, slots)| < |OwnedFrames(s, format, slots)|
  {
    if s == [] {
    } else if format.Some? && s[0].FrameDesc? {
      ListingAgainstOwned(s[1..], format, room - 1, slots);
    } else if format.Some? {
      ListingAgainstOwned(s[1..], None, room, slots);
      if s[0].FormatDescriptor? { OwnedWithoutOwner(s[1..], s[0].parsed, slots); }
    } else {
      ListingAgainstOwned(s[1..], if s[0].FormatDescriptor? then s[0].parsed else None, room, slots);
    }
  }

  function Take<T>(s: seq<T>, n: nat): seq<T> {
    if |s| <= n then s else s[..n]
  }

  /** A smaller list holds the first entries of a larger one. */
  lemma {:induction false} SmallerListIsPrefix(s: seq<Descriptor>, format: Option<StreamFormat>, room: nat, more: nat, slots: nat)
    requires room <= more
    ensures Listing(s, format, room, slots) == Take(Listing(s, format, more, slots), room)
    decreases |s|
  {
    if s == [] {
    } else if format.Some? && s[0].FrameDesc? && room > 0 {
      SmallerListIsPrefix(s[1..], format, room - 1, more - 1, slots);
    } else if format.Some? && s[0].FrameDesc? {
      NothingWithoutRoom(s[1..], None, slots);
    } else if format.Some? {
      SmallerListIsPrefix(s[1..], None, room, more, slots);
    } else {
      SmallerListIsPrefix(s[1..], if s[0].FormatDescriptor? then s[0].parsed else None, room, more, slots);
    }
  }

  lemma {:induction false} NothingWithoutRoom(s: seq<Descriptor>, format: Option<StreamFormat>, slots: nat)
    ensures Listing(s, format, 0, slots) == []
    decreases |s|
  {
    if s == [] {
    } else if format.Some? {
      NothingWithoutRoom(s[1..], None, slots);
    } else {
      NothingWithoutRoom(s[1..], if s[0].FormatDescriptor? then s[0].parsed else None, slots);
    }
  }

  /**
   On a stream whose formats declare their frames exactly, the two modes agree exactly when no format
   with frames is swallowed; then a list of any size holds the first min(size, count) frames in order.
   */
  lemma ListAgreesWithCount(s: seq<Descriptor>, listSize: uint32, slots: nat)
    requires DeclaredExactly(s)
    ensures |OwnedFrames(s, None, slots)| == CountMode(s)
    ensures SwallowsNothing(s, false) ==>
              ListMode(s, listSize, slots) == OwnedFrames(s, None, slots)[..Min(listSize, CountMode(s))]
    ensures SwallowsNothing(s, false) <==> |ListMode(s, |s|, slots)| == CountMode(s)
  {
    OwnedIsCounted(s, None, slots);
    ListingAgainstOwned(s, None, |s|, slots);
    if SwallowsNothing(s, false) {
      var room := if listSize < |s| then |s| else listSize;
      ListingAgainstOwned(s, None, room, slots);
      SmallerListIsPrefix(s, None, listSize, room, slots);
      var all := OwnedFrames(s, None, slots);
      assert Take(all, listSize) == all[..Min(listSize, CountMode(s))];
    }
  }

  /** Two formats back to back, one frame each: two frames are counted, one is listed. */
  lemma AdjacentFormatsDisagree(a: FrameDescriptor, b: FrameDescriptor, slots: nat)
    ensures var s := [FormatDescriptor(Some(H264), 1), FrameDesc(a), FormatDescriptor(Some(MotionJpeg), 1), FrameDesc(b)];
            DeclaredExactly(s) && CountMode(s) == 2 && |ListMode(s, |s|, slots)| == 1
  {
    var d0, d1, d2, d3 := FormatDescriptor(Some(H264), 1), FrameDesc(a), FormatDescriptor(Some(MotionJpeg), 1), FrameDesc(b);
    var s := [d0, d1, d2, d3];
    var s1, s2, s3 := s[1..], s[2..], s[3..];
    assert s1[0] == d1 && s1[1..] == s2;
    assert s2[0] == d2 && s2[1..] == s3;
    assert s3[0] == d3 && s3[1..] == [];
    assert CountMode(s3) == 0;
    assert CountMode(s2) == 1;
    assert CountMode(s1) == 1;
    assert LeadingFrames(s3) == 1 && LeadingFrames(s2) == 0;
    assert LeadingFrames(s1) == 1;
    assert ListMode(s3, 3, slots) == [];
    assert ListFrames(H264, s2, 3, slots) == [];
    assert |ListFrames(H264, s1, 4, slots)| == 1;
  }
}
