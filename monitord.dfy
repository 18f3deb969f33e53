/** The RandR side of monitord (src/monitord.c): classifying the events the xcb source
    delivers and turning an output change into at most one xrandr invocation.

    The only rule in the program is for the output named "DVI1": when it is connected
    but no CRTC drives it, it is enabled above LVDS1; when it is not connected but a
    CRTC still drives it, it is switched off. The invocation is returned as a Command
    value instead of being run through system(). */
module Monitord {
  import opened Wrappers
  import XcbSource

  newtype u8 = x: int | 0 <= x < 0x100
  newtype u32 = x: int | 0 <= x < 0x1_0000_0000

  /** Bit of response_type set on events that were generated by a SendEvent request. */
  const SEND_EVENT_BIT: bv8 := 0x80

  /** XCB_RANDR_NOTIFY_OUTPUT_CHANGE, the code compared against once the extension's
      event base has been subtracted. */
  const NOTIFY_OUTPUT_CHANGE: int := 1

  /** RandR connection value "Connected" (1 is Disconnected, 2 Unknown). */
  const CONNECTED: u8 := 0

  /** RandR CRTC value "None": the output is not driven. */
  const CRTC_NONE: u32 := 0

  /** The output name the rule is about, "DVI1", as ASCII bytes. */
  const DVI1: seq<u8> := [0x44, 0x56, 0x49, 0x31]

  /** The output-change part of a RandR notify event. */
  datatype OutputChange = OutputChange(output: u32, crtc: u32, connection: u8)

  /** An event as the callback receives it: the generic response_type byte and, read
      through the cast to a RandR notify event, its output-change body. */
  datatype XcbEvent = XcbEvent(responseType: bv8, change: OutputChange)

  /** A GetOutputInfo reply: the stated name length and the bytes from the name's start
      to the end of the reply, which hold at least that many bytes. */
  datatype RawOutputInfo = RawOutputInfo(nameLen: nat, nameData: seq<u8>)
  type OutputInfoReply = r: RawOutputInfo | r.nameLen <= |r.nameData| witness RawOutputInfo(0, [])

  /** The user data handed to the callback: what the server answers to GetOutputInfo for
      each output, and the first event code of the RandR extension. */
  datatype RandrContext = RandrContext(outputInfo: u32 -> OutputInfoReply, eventBase: int)

  datatype Command = EnableDVI1 | DisableDVI1 | NoCommand

  datatype Route = OutputChangeRoute | Ignored

  /** What one call of the callback produces: its return value (FALSE asks GLib to drop
      the source) and the xrandr command it issues. */
  datatype Handled = Handled(keep: bool, command: Command)

  /** The command line passed to system(), if any. */
  function CommandLine(c: Command): (line: Option<string>)
    ensures line.Some? <==> c != NoCommand
  {
    match c
    case EnableDVI1 => Some("xrandr --output DVI1 --auto --above LVDS1")
    case DisableDVI1 => Some("xrandr --output DVI1 --off")
    case NoCommand => None
  }

  /** strndup: the longest prefix of the first `len` bytes of `buf` that holds no NUL. */
  function StrNDup(buf: seq<u8>, len: nat): (s: seq<u8>)
    requires len <= |buf|
    ensures |s| <= len && s == buf[..|s|]
    ensures forall i :: 0 <= i < |s| ==> s[i] != 0
    ensures |s| < len ==> buf[|s|] == 0
    decreases len
  {
    if len == 0 || buf[0] == 0 then [] else [buf[0]] + StrNDup(buf[1..], len - 1)
  }

  /** The name handle_output_change compares: the reply's name bytes, truncated to the
      reply's stated length. */
  function OutputName(reply: OutputInfoReply): (name: seq<u8>)
  {
    StrNDup(reply.nameData, reply.nameLen)
  }

  /** Whether the raw name bytes of a reply spell "DVI1" as a C string. */
  predicate NameBytesAreDVI1(buf: seq<u8>, len: nat)
    requires len <= |buf|
  {
    4 <= len && buf[..4] == DVI1 && (len == 4 || buf[4] == 0)
  }

  predicate IsConnected(connection: u8)
  {
    connection == CONNECTED
  }

  predicate IsDriven(crtc: u32)
  {
    crtc != CRTC_NONE
  }

  /** The DVI1 rule: connected but not driven enables the output above LVDS1, not
      connected but still driven switches it off, anything else does nothing. */
  function Decide(name: seq<u8>, connection: u8, crtc: u32): (c: Command)
    ensures c == EnableDVI1 <==> name == DVI1 && IsConnected(connection) && !IsDriven(crtc)
    ensures c == DisableDVI1 <==> name == DVI1 && !IsConnected(connection) && IsDriven(crtc)
  {
    if name == DVI1 then
      if connection == 0 && crtc == 0 then EnableDVI1
      else if connection != 0 && crtc != 0 then DisableDVI1
      else NoCommand
    else
      NoCommand
  }

  /** handle_output_change: the command for an output change, given the server's
      GetOutputInfo answers. Stated on the raw reply bytes: only the first name_len
      bytes matter, up to the first NUL. */
  function HandleOutputChange(outputInfo: u32 -> OutputInfoReply, change: OutputChange): (c: Command)
    ensures var reply := outputInfo(change.output);
      (c == EnableDVI1 <==>
        NameBytesAreDVI1(reply.nameData, reply.nameLen) &&
        IsConnected(change.connection) && !IsDriven(change.crtc)) &&
      (c == DisableDVI1 <==>
        NameBytesAreDVI1(reply.nameData, reply.nameLen) &&
        !IsConnected(change.connection) && IsDriven(change.crtc))
  {
    var reply := outputInfo(change.output);
    NameIsDVI1Iff(reply.nameData, reply.nameLen);
    Decide(OutputName(reply), change.connection, change.crtc)
  }

  /** The switch value of handle_xcb_event: response_type without the SendEvent bit,
      minus the extension's event base. */
  function EventCode(responseType: bv8, eventBase: int): (code: int)
  {
    (responseType & !SEND_EVENT_BIT) as int - eventBase
  }

  /** Only the output-change code is routed; every other code is ignored. */
  function Classify(responseType: bv8, eventBase: int): (r: Route)
    ensures r == OutputChangeRoute <==> responseType as int % 0x80 == eventBase + NOTIFY_OUTPUT_CHANGE
  {
    MaskIsRemainder(responseType);
    if EventCode(responseType, eventBase) == NOTIFY_OUTPUT_CHANGE then OutputChangeRoute else Ignored
  }

  /** handle_xcb_event: a missing event or missing user data is refused with FALSE and
      nothing handled; otherwise the event is classified, an output change is handled,
      and the source is kept (TRUE). */
  function HandleXcbEvent(event: Option<XcbEvent>, userData: Option<RandrContext>): (h: Handled)
    ensures event.None? || userData.None? ==> h == Handled(false, NoCommand)
    ensures event.Some? && userData.Some? ==> h.keep
    ensures h.command != NoCommand ==>
      event.Some? && userData.Some? &&
      Classify(event.value.responseType, userData.value.eventBase) == OutputChangeRoute
  {
    if event.None? || userData.None? then
      Handled(false, NoCommand)
    else
      var context := userData.value;
      match Classify(event.value.responseType, context.eventBase)
      case OutputChangeRoute => Handled(true, HandleOutputChange(context.outputInfo, event.value.change))
      case Ignored => Handled(true, NoCommand)
  }

  /** The callback registered with the xcb source: handle_xcb_event's return value. */
  function Keep(event: Option<XcbEvent>, userData: Option<RandrContext>): (keep: bool)
  {
    HandleXcbEvent(event, userData).keep
  }

  // ---------------------------------------------------------------------------
  // Lemmas

  /** Clearing the SendEvent bit with `& ~0x80` leaves the value modulo 128. */
  lemma MaskIsRemainder(b: bv8)
    ensures (b & !SEND_EVENT_BIT) as int == b as int % 0x80
  {
  }

  /** The name compared equals "DVI1" exactly when the first name_len bytes start with
      D, V, I, 1 and either stop there or are followed by a NUL. */
  lemma NameIsDVI1Iff(buf: seq<u8>, len: nat)
    requires len <= |buf|
    ensures StrNDup(buf, len) == DVI1 <==> NameBytesAreDVI1(buf, len)
  {
    var s := StrNDup(buf, len);
    if NameBytesAreDVI1(buf, len) {
      assert |s| == 4;
    }
  }

  /** Bytes of the reply past the stated name length never affect the compared name. */
  lemma {:induction false} StrNDupReadsOnlyLen(a: seq<u8>, b: seq<u8>, len: nat)
    requires len <= |a| && len <= |b| && a[..len] == b[..len]
    ensures StrNDup(a, len) == StrNDup(b, len)
    decreases len
  {
    if len > 0 {
      assert a[0] == a[..len][0] && b[0] == b[..len][0];
      assert a[1..][..len - 1] == a[..len][1..] && b[1..][..len - 1] == b[..len][1..];
      StrNDupReadsOnlyLen(a[1..], b[1..], len - 1);
    }
  }

  /** The decision depends only on the output's name (as far as the stated length),
      its connection and its CRTC; in particular a duplicated event yields the same
      decision again. */
  lemma DecisionDependsOnlyOnNameConnectionCrtc(
    info1: u32 -> OutputInfoReply, change1: OutputChange,
    info2: u32 -> OutputInfoReply, change2: OutputChange)
    requires info1(change1.output).nameLen == info2(change2.output).nameLen
    requires var r1, r2 := info1(change1.output), info2(change2.output);
      r1.nameData[..r1.nameLen] == r2.nameData[..r2.nameLen]
    requires change1.connection == change2.connection && change1.crtc == change2.crtc
    ensures HandleOutputChange(info1, change1) == HandleOutputChange(info2, change2)
  {
    var r1, r2 := info1(change1.output), info2(change2.output);
    StrNDupReadsOnlyLen(r1.nameData, r2.nameData, r1.nameLen);
  }

  /** Setting or clearing the SendEvent bit never changes the route. */
  lemma SendEventBitIgnored(responseType: bv8, eventBase: int)
    ensures Classify(responseType | SEND_EVENT_BIT, eventBase) == Classify(responseType, eventBase)
    ensures Classify(responseType & !SEND_EVENT_BIT, eventBase) == Classify(responseType, eventBase)
  {
  }

  /** End to end: an event yields the enable command exactly when it and the user data
      are present, its code (without the SendEvent bit, less the event base) is the
      output-change code, the reply names DVI1, and DVI1 is connected but not driven;
      and symmetrically for the disable command. */
  lemma HandleXcbEventCommands(event: Option<XcbEvent>, userData: Option<RandrContext>)
    ensures var h := HandleXcbEvent(event, userData);
      (h.command == EnableDVI1 <==>
        event.Some? && userData.Some? &&
        var e, ctx := event.value, userData.value;
        var reply := ctx.outputInfo(e.change.output);
        e.responseType as int % 0x80 == ctx.eventBase + NOTIFY_OUTPUT_CHANGE &&
        NameBytesAreDVI1(reply.nameData, reply.nameLen) &&
        IsConnected(e.change.connection) && !IsDriven(e.change.crtc)) &&
      (h.command == DisableDVI1 <==>
        event.Some? && userData.Some? &&
        var e, ctx := event.value, userData.value;
        var reply := ctx.outputInfo(e.change.output);
        e.responseType as int % 0x80 == ctx.eventBase + NOTIFY_OUTPUT_CHANGE &&
        NameBytesAreDVI1(reply.nameData, reply.nameLen) &&
        !IsConnected(e.change.connection) && IsDriven(e.change.crtc))
  {
  }

  // ---------------------------------------------------------------------------
  // The callback driven by the xcb source

  /** With handle_xcb_event registered as the callback, a readable descriptor on a
      failed connection makes Check report ready with nothing queued; the Dispatch that
      follows hands NULL to the callback, which answers FALSE, so GLib removes the
      source. */
  method ConnectionErrorDispatch(source: XcbSource.PDXcbSource<XcbEvent, Option<RandrContext>>)
    returns (ready: bool, keep: bool)
    requires source.Valid() && !source.finalised && source.callback == Keep
    requires source.queue == [] && XcbSource.Readable(source.fd) && source.connection.error != 0
    modifies source`queue, source`arrived, source`delivered, source`released, source.connection`pending
    ensures ready && !keep
    ensures source.queue == [] && source.delivered == old(source.delivered)
  {
    ready := source.Check();
    ghost var event;
    keep, event := source.Dispatch();
  }
}
