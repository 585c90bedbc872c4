/**
 * The MPD output adapter, reduced to the logic it applies around its network
 * calls: time parsing and formatting, the seek clamp, the play-mode command
 * mapping, volume and mute bookkeeping, and the status refresh that copies
 * the player's state, duration, URI, metadata and position into the
 * AVTransport store. Each network exchange is an input: `connected` for the
 * connection check, a success flag or an MpdResult for the command, and an
 * Option for a status or song fetch.
 */
module Mpd {
  import opened Common
  import opened TransportDefs
  import opened TransportStore

  /** The MIME types the adapter registers with the connection manager, in registration order. */
  const MimeTypes: seq<string> := [
    "audio/mpeg", "audio/mp4", "audio/m4a", "audio/mp2", "audio/mpc", "audio/ogg",
    "audio/AMR", "audio/AMR-WB", "audio/amr-nb-sh", "audio/amr-wb-sh", "audio/3gpp",
    "audio/adpcm", "audio/L16", "audio/ape", "audio/flac", "audio/wav", "audio/x-ape",
    "audio/x-flac", "audio/x-ogg", "audio/x-wave", "audio/x-wav", "audio/x-wavpack",
    "audio/x-ms-wma", "audio/x-ms-wmv", "audio/x-wma"]

  // ---------------------------------------------------------------------
  // Time values
  // ---------------------------------------------------------------------

  /** The rest of `s` after the character at `at`; past the end it is empty. */
  function SkipOne(s: string, at: nat): (r: string)
    ensures at < |s| ==> r == s[at + 1..]
  {
    if at < |s| then s[at + 1..] else ""
  }

  /**
   * parsetimetosecs: three strtol calls, each followed by skipping exactly
   * one character, combined as hours, minutes and seconds. NULL gives 0.
   */
  function ParseTimeToSecs(value: Option<string>): (secs: int)
    ensures value.None? ==> secs == 0
    ensures value.Some? && value.value == "" ==> secs == 0
  {
    match value
    case None => 0
    case Some(s) =>
      var h := Strtol(s);
      var rest1 := SkipOne(s, h.end);
      var m := Strtol(rest1);
      var rest2 := SkipOne(rest1, m.end);
      var sec := Strtol(rest2);
      h.value * 3600 + m.value * 60 + sec.value
  }

  /** The three fields "%02d:%02d:%02d" prints. */
  datatype Hms = Hms(h: int, m: int, s: int)

  /** C's `/`, which truncates toward zero. */
  function CDiv(a: int, b: int): (q: int)
    requires b > 0
    ensures a >= 0 ==> q == a / b
    ensures a < 0 ==> q == -((-a) / b)
  {
    if a >= 0 then a / b else -((-a) / b)
  }

  /**
   * The hh/mm/ss split of update_track_position and update_mpd_status, with
   * C division: the fields always add back up to the value, and for a
   * non-negative value minutes and seconds are below 60.
   */
  function SecondsToHms(val: int): (r: Hms)
    ensures r.h * 3600 + r.m * 60 + r.s == val
    ensures val >= 0 ==> r.h == val / 3600 && 0 <= r.m < 60 && 0 <= r.s < 60
  {
    var hh := CDiv(val, 3600);
    var mm := CDiv(val - hh * 3600, 60);
    Hms(hh, mm, val - hh * 3600 - mm * 60)
  }

  /** "%02d": at least two characters, zero-padded when non-negative. */
  function Pad2(n: int): (s: string)
    ensures n >= 0 ==> |s| >= 2 && AllDigits(s)
  {
    if 0 <= n < 10 then ['0', DigitChar(n)]
    else if n < 0 then IntToString(n)
    else NatToString(n)
  }

  /** The "%02d:%02d:%02d" text of a split time. */
  function FormatHms(t: Hms): string {
    Pad2(t.h) + ([':'] + (Pad2(t.m) + ([':'] + Pad2(t.s))))
  }

  /** The hh:mm:ss text the adapter stores: formatted, then cut to the 10-byte buffer. */
  function HmsText(val: int): string {
    Truncate(FormatHms(SecondsToHms(val)), 9)
  }

  /** A field below 1000 prints in at most three characters, one below 100 in exactly two. */
  lemma Pad2Length(n: nat)
    requires n < 1000
    ensures |Pad2(n)| <= 3
    ensures n < 100 ==> |Pad2(n)| == 2
  {
    if n >= 10 {
      assert Pow10(3) == 1000 && Pow10(2) == 100;
      NatToStringLength(n, 3);
      if n < 100 {
        NatToStringLength(n, 2);
      }
    }
  }

  /** One field: strtol over a digit run, then the single separator after it is skipped. */
  lemma FieldThen(d: string, sep: char, t: string)
    requires |d| > 0 && AllDigits(d) && !IsDigit(sep)
    ensures Strtol(d + ([sep] + t)) == Parsed(DigitsValue(d), |d|)
    ensures SkipOne(d + ([sep] + t), |d|) == t
  {
    StrtolOfDigitsThen(d, [sep] + t);
    assert (d + ([sep] + t))[|d| + 1..] == t;
  }

  /**
   * parsetimetosecs on three digit fields separated by single characters
   * and followed by anything that does not start with a digit.
   */
  lemma ParseThreeFields(d1: string, d2: string, d3: string, t: string)
    requires |d1| > 0 && AllDigits(d1) && |d2| > 0 && AllDigits(d2) && |d3| > 0 && AllDigits(d3)
    requires |t| == 0 || !IsDigit(t[0])
    ensures ParseTimeToSecs(Some(d1 + ([':'] + (d2 + ([':'] + (d3 + t))))))
            == DigitsValue(d1) * 3600 + DigitsValue(d2) * 60 + DigitsValue(d3)
  {
    var rest2 := d3 + t;
    var rest1 := d2 + ([':'] + rest2);
    var text := d1 + ([':'] + rest1);
    var h, m, sec := Parsed(DigitsValue(d1), |d1|), Parsed(DigitsValue(d2), |d2|), Parsed(DigitsValue(d3), |d3|);
    assert Strtol(text) == h && SkipOne(text, |d1|) == rest1 by {
      FieldThen(d1, ':', rest1);
    }
    assert Strtol(rest1) == m && SkipOne(rest1, |d2|) == rest2 by {
      FieldThen(d2, ':', rest2);
    }
    assert Strtol(rest2) == sec by {
      StrtolOfDigitsThen(d3, t);
    }
    ParseFromFields(text, h, rest1, m, rest2, sec);
  }

  /** parsetimetosecs in terms of its three strtol calls and the separators skipped between them. */
  lemma ParseFromFields(s: string, h: Parsed, rest1: string, m: Parsed, rest2: string, sec: Parsed)
    requires Strtol(s) == h && SkipOne(s, h.end) == rest1
    requires Strtol(rest1) == m && SkipOne(rest1, m.end) == rest2 && Strtol(rest2) == sec
    ensures ParseTimeToSecs(Some(s)) == h.value * 3600 + m.value * 60 + sec.value
  {
  }

  /** The value of a "%02d" field is the number printed. */
  lemma Pad2Value(n: nat)
    ensures DigitsValue(Pad2(n)) == n
  {
    var p := Pad2(n);
    if n < 10 {
      assert p[..1] == "0";
      assert DigitsValue(p) == DigitsValue(p[..1]) * 10 + n;
      assert DigitsValue(p[..1]) == DigitsValue(p[..0]) * 10 + 0;
    } else {
      DigitsValueOfNatToString(n);
    }
  }

  /** parsetimetosecs reads back any time "%02d:%02d:%02d" printed. */
  lemma ParseFormatHms(h: nat, m: nat, s: nat)
    ensures ParseTimeToSecs(Some(FormatHms(Hms(h, m, s)))) == h * 3600 + m * 60 + s
  {
    ParseThreeFields(Pad2(h), Pad2(m), Pad2(s), "");
    assert Pad2(s) + "" == Pad2(s);
    Pad2Value(h);
    Pad2Value(m);
    Pad2Value(s);
  }

  /**
   * A position stored as hh:mm:ss parses back to the elapsed seconds, for
   * every position under 1000 hours (beyond that the buffer cuts the text).
   */
  lemma HmsTextRoundTrip(val: nat)
    requires val < 3600000
    ensures ParseTimeToSecs(Some(HmsText(val))) == val
  {
    var t := SecondsToHms(val);
    assert 0 <= t.m < 60 && 0 <= t.s < 60 && t.h == val / 3600;
    assert 0 <= t.h < 1000;
    Pad2Length(t.h);
    Pad2Length(t.m);
    Pad2Length(t.s);
    assert |FormatHms(t)| <= 9;
    assert HmsText(val) == FormatHms(t);
    ParseFormatHms(t.h, t.m, t.s);
  }

  /** Text appended after three ':'-separated fields is appended to the last field. */
  lemma FieldsThen(d1: string, d2: string, d3: string, t: string)
    ensures (d1 + ([':'] + (d2 + ([':'] + d3)))) + t == d1 + ([':'] + (d2 + ([':'] + (d3 + t))))
  {
  }

  /** A fraction after the seconds, as DIDL-Lite durations carry, is ignored. */
  lemma ParseIgnoresFraction(h: nat, m: nat, s: nat, frac: string)
    ensures ParseTimeToSecs(Some(FormatHms(Hms(h, m, s)) + ("." + frac))) == h * 3600 + m * 60 + s
  {
    ParseThreeFields(Pad2(h), Pad2(m), Pad2(s), "." + frac);
    FieldsThen(Pad2(h), Pad2(m), Pad2(s), "." + frac);
    Pad2Value(h);
    Pad2Value(m);
    Pad2Value(s);
  }

  // ---------------------------------------------------------------------
  // Seek
  // ---------------------------------------------------------------------

  /** The player states libmpdclient reports. */
  datatype MpdState = MpdUnknown | MpdStop | MpdPlay | MpdPause

  /** The fields of an MPD status reply the adapter reads. */
  datatype MpdStatus = MpdStatus(state: MpdState, songId: int, songPos: int, elapsed: int, totalTime: int, volume: int)

  /** The seek clamp: below 0 becomes 0, then above the track duration becomes the duration. */
  function ClampSeek(target: int, duration: int): (r: int)
    ensures duration >= 0 ==> 0 <= r <= duration
    ensures 0 <= target <= duration ==> r == target
    ensures target < 0 && duration >= 0 ==> r == 0
    ensures target > duration && duration >= 0 ==> r == duration
  {
    var low := if target < 0 then 0 else target;
    if low > duration then duration else low
  }

  /** What output_seekto did: its return value and the (song id, seconds) it asked MPD to seek to. */
  datatype SeekOutcome = SeekOutcome(rc: int, seek: Option<(int, int)>)

  /**
   * output_seekto: needs a connection and a status reply; refuses to seek a
   * stopped player; otherwise seeks the current song to the clamped target.
   * `seekOk` is the outcome of the seek command.
   */
  function OutputSeekTo(connected: bool, status: Option<MpdStatus>, target: string, trackDuration: int, seekOk: bool): (r: SeekOutcome)
    ensures r.seek.Some? <==> connected && status.Some? && status.value.state != MpdStop
    ensures r.seek.Some? ==> r.seek.value == (status.value.songId, ClampSeek(ParseTimeToSecs(Some(target)), trackDuration))
    ensures r.rc == 0 <==> r.seek.Some? && seekOk
    ensures r.rc == 0 || r.rc == -1
  {
    if !connected || status.None? || status.value.state == MpdStop then SeekOutcome(-1, None)
    else
      var to := ClampSeek(ParseTimeToSecs(Some(target)), trackDuration);
      SeekOutcome(if seekOk then 0 else -1, Some((status.value.songId, to)))
  }

  // ---------------------------------------------------------------------
  // Play modes
  // ---------------------------------------------------------------------

  /** The single, random and repeat switches sent as one command list. */
  datatype ModeFlags = ModeFlags(single: bool, random: bool, repeat: bool)

  /** The switches for each play-mode name the adapter knows; other names have none. */
  function PlayModeFlags(mode: string): (r: Option<ModeFlags>)
    ensures r.Some? <==> mode in ["NORMAL", "REPEAT-ONE", "DIRECT_1", "REPEAT-ALL", "RANDOM"]
  {
    if mode == "NORMAL" then Some(ModeFlags(false, false, false))
    else if mode == "REPEAT-ONE" then Some(ModeFlags(true, false, true))
    else if mode == "DIRECT_1" then Some(ModeFlags(true, false, false))
    else if mode == "REPEAT-ALL" then Some(ModeFlags(false, false, true))
    else if mode == "RANDOM" then Some(ModeFlags(false, true, false))
    else None
  }

  /** The play-mode name selecting a set of switches, where one does. */
  function ModeOfFlags(f: ModeFlags): (r: Option<string>)
    ensures r.Some? ==> PlayModeFlags(r.value) == Some(f)
  {
    if f == ModeFlags(false, false, false) then Some("NORMAL")
    else if f == ModeFlags(true, false, true) then Some("REPEAT-ONE")
    else if f == ModeFlags(true, false, false) then Some("DIRECT_1")
    else if f == ModeFlags(false, false, true) then Some("REPEAT-ALL")
    else if f == ModeFlags(false, true, false) then Some("RANDOM")
    else None
  }

  /** Each known mode has its own switches: the mapping can be read backwards. */
  lemma PlayModeFlagsInvert(mode: string)
    requires PlayModeFlags(mode).Some?
    ensures ModeOfFlags(PlayModeFlags(mode).value) == Some(mode)
  {
  }

  /** What output_playmode did: its return value and the switches it sent. */
  datatype PlaymodeOutcome = PlaymodeOutcome(rc: int, sent: Option<ModeFlags>)

  /**
   * output_playmode: with a connection, a known mode sends its switches and
   * succeeds when the command list does (`listOk`); an unknown mode sends
   * nothing and fails.
   */
  function OutputPlaymode(connected: bool, mode: string, listOk: bool): (r: PlaymodeOutcome)
    ensures r.sent == (if connected then PlayModeFlags(mode) else None)
    ensures r.rc == 0 <==> connected && PlayModeFlags(mode).Some? && listOk
    ensures r.rc == 0 || r.rc == -1
  {
    if !connected then PlaymodeOutcome(-1, None)
    else
      match PlayModeFlags(mode)
      case None => PlaymodeOutcome(-1, None)
      case Some(f) => PlaymodeOutcome(if listOk then 0 else -1, Some(f))
  }

  /**
   * The service description allows REPEAT_ONE and REPEAT_ALL, but the
   * adapter only knows the hyphenated spellings: both allowed modes fail.
   */
  lemma AllowedRepeatModesRejected(connected: bool, listOk: bool)
    ensures AllowedPlayModes[1] == "REPEAT_ONE" && AllowedPlayModes[2] == "REPEAT_ALL"
    ensures OutputPlaymode(connected, AllowedPlayModes[1], listOk).rc == -1
    ensures OutputPlaymode(connected, AllowedPlayModes[2], listOk).rc == -1
  {
  }

  // ---------------------------------------------------------------------
  // Volume and mute
  // ---------------------------------------------------------------------

  /** The adapter's own variables: current volume, volume to restore on unmute, track duration. */
  datatype Player = Player(volume: int, muteVolume: int, trackDuration: int)

  /** How an MPD command ended: success, an error the server sent, or a connection error. */
  datatype MpdResult = MpdOk | MpdServerError | MpdConnectionError

  function Clamp(v: int, lo: int, hi: int): (r: int)
    requires lo <= hi
    ensures lo <= r <= hi
    ensures lo <= v <= hi ==> r == v
    ensures v < lo ==> r == lo
    ensures v > hi ==> r == hi
  {
    if v < lo then lo else if v > hi then hi else v
  }

  /**
   * output_set_volume: atoi of the text, clamped to 0..100, becomes both the
   * current and the restore volume, unless the server rejected it. NULL text
   * or no connection changes nothing.
   */
  function SetVolume(p: Player, connected: bool, newvol: Option<string>, res: MpdResult): (r: Player)
    ensures r.trackDuration == p.trackDuration
    ensures connected && newvol.Some? && res != MpdServerError ==>
              r.volume == Clamp(Atoi(newvol.value), 0, 100) && r.muteVolume == r.volume
    ensures !connected || newvol.None? || res == MpdServerError ==> r == p
  {
    if !connected || newvol.None? then p
    else
      var v := Clamp(Atoi(newvol.value), 0, 100);
      if res == MpdServerError then p else p.(volume := v, muteVolume := v)
  }

  /**
   * output_set_mute: muting saves the current volume and sets 0; unmuting
   * sets the saved volume. The save happens before the command, so it
   * survives a server error; the new volume does not.
   */
  function SetMute(p: Player, connected: bool, mute: bool, res: MpdResult): (r: Player)
    ensures r.trackDuration == p.trackDuration
    ensures !connected ==> r == p
    ensures connected && mute ==> r.muteVolume == p.volume
    ensures connected && !mute ==> r.muteVolume == p.muteVolume
    ensures connected && res != MpdServerError ==> r.volume == (if mute then 0 else p.muteVolume)
    ensures res == MpdServerError ==> r.volume == p.volume
  {
    if !connected then p
    else
      var saved := if mute then p.volume else p.muteVolume;
      var target := if mute then 0 else p.muteVolume;
      if res == MpdServerError then p.(muteVolume := saved)
      else p.(muteVolume := saved, volume := target)
  }

  /** Set a volume, mute, unmute: the volume is back at the clamped value. */
  lemma VolumeMuteUnmute(p: Player, text: string, r1: MpdResult, r2: MpdResult)
    requires r1 != MpdServerError && r2 != MpdServerError
    ensures var q := SetMute(SetMute(SetVolume(p, true, Some(text), r1), true, true, r2), true, false, r2);
            q.volume == Clamp(Atoi(text), 0, 100) && q.muteVolume == q.volume
  {
  }

  /** A failed mute still remembers the volume, so a later unmute does not lose it. */
  lemma FailedMuteKeepsRestoreVolume(p: Player)
    ensures SetMute(SetMute(p, true, true, MpdServerError), true, false, MpdOk).volume == p.volume
  {
  }

  /** atoi narrows to `int`: the text of 2^32 - 1 reads as -1, which the clamp turns into 0. */
  lemma WrappedVolumeClampsToZero(p: Player)
    ensures SetVolume(p, true, Some(IntToString(IntModulus - 1)), MpdOk).volume == 0
  {
    AtoiOfIntToString(IntModulus - 1);
  }

  /** output_get_volume: "%d" into a 6-byte buffer. */
  function GetVolume(p: Player): (text: string)
    ensures |text| <= 5
  {
    Truncate(IntToString(p.volume), 5)
  }

  /** Any volume the adapter can set reads back unchanged through atoi. */
  lemma GetVolumeRoundTrip(p: Player)
    requires 0 <= p.volume <= 100
    ensures Atoi(GetVolume(p)) == p.volume
  {
    assert Pow10(3) == 1000;
    NatToStringLength(p.volume, 3);
    AtoiOfIntToString(p.volume);
  }

  // ---------------------------------------------------------------------
  // Status refresh
  // ---------------------------------------------------------------------

  /** The tags of a queued song that the metadata synthesis reads. */
  datatype Tags = Tags(title: Option<string>, album: Option<string>, artist: Option<string>,
                       track: Option<string>, date: Option<string>, name: Option<string>)

  /** The fields of the current song the adapter reads. */
  datatype Song = Song(duration: int, uri: Option<string>, tags: Tags)

  /** The text fields of a synthesized DIDL-Lite item. */
  datatype DidlFields = DidlFields(title: string, album: string, artist: string, track: string, date: string)

  /**
   * The defaults of get_track_metadata: there must be a title or a name;
   * a missing title takes the name; a missing album takes the name only
   * when there is a title; every other gap gets a fixed filler.
   */
  function SynthesizeFields(tags: Tags): (r: Option<DidlFields>)
    ensures r.Some? <==> tags.title.Some? || tags.name.Some?
    ensures r.Some? && tags.title.Some? ==> r.value.title == tags.title.value
    ensures r.Some? && tags.title.None? ==> r.value.title == tags.name.value
    ensures r.Some? && tags.album.Some? ==> r.value.album == tags.album.value
    ensures r.Some? && tags.album.None? && tags.title.Some? ==> r.value.album == tags.name.GetOr("Unknown")
    ensures r.Some? && tags.album.None? && tags.title.None? ==> r.value.album == "Unknown"
    ensures r.Some? ==> r.value.artist == tags.artist.GetOr("Unknown")
    ensures r.Some? ==> r.value.track == tags.track.GetOr("1")
    ensures r.Some? ==> r.value.date == tags.date.GetOr("1980-01-01T00:00:00")
  {
    if tags.title.None? && tags.name.None? then None
    else
      var name := tags.name.GetOr("Unknown");
      var title := tags.title.GetOr(name);
      var album := tags.album.GetOr(if tags.title.Some? then name else "Unknown");
      Some(DidlFields(title, album, tags.artist.GetOr("Unknown"), tags.track.GetOr("1"),
                      tags.date.GetOr("1980-01-01T00:00:00")))
  }

  /**
   * What asprintf makes of a template whose `%s` holes split it into
   * `pieces`: the pieces with the arguments between them, in order.
   */
  function Format(pieces: seq<string>, args: seq<string>): (r: string)
    requires |pieces| == |args| + 1
    ensures pieces[0] <= r
    ensures |args| > 0 ==> pieces[0] + args[0] <= r
    ensures |args| == 0 ==> r == pieces[0]
    decreases |args|
  {
    if |args| == 0 then pieces[0]
    else pieces[0] + args[0] + Format(pieces[1..], args[1..])
  }

  /**
   * The text of the DIDL-Lite template up to its first `%s` hole, the title.
   * The namespace attributes run together without spaces, exactly as the
   * template is written.
   */
  function DidlHead(): string {
    "<DIDL-Lite xmlns=" + "\"urn:schemas-upnp-org:" + "metadata-1-0/DIDL-Lite/\""
    + "xmlns:upnp=" + "\"urn:schemas-upnp-org:" + "metadata-1-0/upnp/\""
    + "xmlns:dc=" + "\"http://purl.org/" + "dc/elements/1.1/\""
    + "xmlns:dlna=" + "\"urn:schemas-dlna-org:" + "metadata-1-0/\">"
    + "<item id=\"xyzzy$1$0\"" + " parentID=\"xyzzy$1\"" + " restricted=\"1\">"
    + "<upnp:class>" + "object.item." + "audioItem.musicTrack" + "</upnp:class>"
    + "<dc:title>"
  }

  /** The rest of the template, cut at its holes for album, artist, track, date, duration and URI. */
  function DidlTail(): (pieces: seq<string>)
    ensures |pieces| == 7
  {
    ["</dc:title>" + "<upnp:album>",
     "</upnp:album>" + "<upnp:artist>",
     "</upnp:artist>" + "<upnp:originalTrackNumber>",
     "</upnp:originalTrackNumber>" + "<dc:date>",
     "</dc:date>" + "<res protocolInfo=" + "\"http-get:*:" + "audio/mpeg:" + "DLNA.ORG_PN=MP3\"" + " duration=\"",
     "\"> ",
     "</res>" + "</item>" + "</DIDL-Lite>"]
  }

  /**
   * The short-form DIDL-Lite document for a song, with its duration and URI:
   * the template filled at its seven `%s` holes in order (a space precedes
   * the URI, as the template has it). The document opens with the header
   * and the title.
   */
  function Didl(f: DidlFields, duration: string, uri: string): (doc: string)
    ensures DidlHead() + f.title <= doc
  {
    Format([DidlHead()] + DidlTail(), [f.title, f.album, f.artist, f.track, f.date, duration, uri])
  }

  /** A NULL or empty string variable. */
  predicate Blank(o: Option<string>) {
    o.None? || o.value == ""
  }

  /** When get_track_metadata writes: no AVTransport metadata, a URI, and a title or name. */
  predicate SynthesizesFor(s: Store, tags: Tags)
    requires ValidStore(s)
  {
    Blank(Get(s, AVTransportURIMetaData)) && !Blank(Get(s, AVTransportURI)) && SynthesizeFields(tags).Some?
  }

  /**
   * get_track_metadata: when it applies, the synthesized document becomes
   * both the track and the AVTransport metadata; otherwise nothing changes.
   */
  function GetTrackMetadata(s: Store, tags: Tags): (r: Store)
    requires ValidStore(s) && Initialized(s)
    ensures ValidStore(r) && Initialized(r)
    ensures !SynthesizesFor(s, tags) ==> r == s
    ensures SynthesizesFor(s, tags) ==>
              var doc := Didl(SynthesizeFields(tags).value, Get(s, CurrentTrackDuration).value, Get(s, AVTransportURI).value);
              Get(r, CurrentTrackMetaData) == Some(doc) && Get(r, AVTransportURIMetaData) == Some(doc)
    ensures forall i :: 0 <= i < VarUnknown && i != VarIndex(CurrentTrackMetaData) && i != VarIndex(AVTransportURIMetaData) ==> r[i] == s[i]
    ensures Get(r, CurrentTrackURI) == Get(s, CurrentTrackURI) && Get(r, AVTransportURI) == Get(s, AVTransportURI)
    ensures Get(r, TransportState) == Get(s, TransportState)
  {
    if !SynthesizesFor(s, tags) then s
    else
      SetMetadata(s, Didl(SynthesizeFields(tags).value, Get(s, CurrentTrackDuration).value, Get(s, AVTransportURI).value))
  }

  /** A metadata document stored as both the track and the AVTransport metadata. */
  function SetMetadata(s: Store, doc: string): (r: Store)
    requires ValidStore(s) && Initialized(s)
    ensures ValidStore(r) && Initialized(r)
    ensures Get(r, CurrentTrackMetaData) == Some(doc) && Get(r, AVTransportURIMetaData) == Some(doc)
    ensures forall i :: 0 <= i < VarUnknown && i != VarIndex(CurrentTrackMetaData) && i != VarIndex(AVTransportURIMetaData) ==> r[i] == s[i]
  {
    SetVar(SetVar(s, CurrentTrackMetaData, Some(doc)), AVTransportURIMetaData, Some(doc))
  }

  /** update_track_position: the track number and the relative and absolute positions. */
  function UpdateTrackPosition(s: Store, songPos: int, elapsed: int): (r: Store)
    requires ValidStore(s) && Initialized(s)
    ensures ValidStore(r) && Initialized(r)
    ensures Get(r, CurrentTrack) == Some(Truncate(IntToString(songPos + 1), 5))
    ensures Get(r, RelativeCounterPosition) == Some(Truncate(IntToString(elapsed), 9))
    ensures Get(r, AbsoluteCounterPosition) == Get(r, RelativeCounterPosition)
    ensures Get(r, RelativeTimePosition) == Some(HmsText(elapsed))
    ensures Get(r, AbsoluteTimePosition) == Get(r, RelativeTimePosition)
    ensures forall v: TransportVar ::
              v !in {CurrentTrack, RelativeCounterPosition, AbsoluteCounterPosition, RelativeTimePosition, AbsoluteTimePosition}
              ==> Get(r, v) == Get(s, v)
  {
    var counter := Truncate(IntToString(elapsed), 9);
    var time := HmsText(elapsed);
    var s1 := SetVar(s, CurrentTrack, Some(Truncate(IntToString(songPos + 1), 5)));
    var s2 := SetVar(SetVar(s1, RelativeCounterPosition, Some(counter)), AbsoluteCounterPosition, Some(counter));
    SetVar(SetVar(s2, RelativeTimePosition, Some(time)), AbsoluteTimePosition, Some(time))
  }

  /**
   * The stored position reads back: CurrentTrack is the queue position plus
   * one, and both the counters and the hh:mm:ss positions give the elapsed
   * seconds, within the ranges the buffers hold.
   */
  lemma TrackPositionRoundTrip(s: Store, songPos: int, elapsed: int)
    requires ValidStore(s) && Initialized(s)
    requires -1 <= songPos < 9999 && 0 <= elapsed < 3600000
    ensures var r := UpdateTrackPosition(s, songPos, elapsed);
            && Atoi(Get(r, CurrentTrack).value) == songPos + 1
            && Atoi(Get(r, RelativeCounterPosition).value) == elapsed
            && Atoi(Get(r, AbsoluteCounterPosition).value) == elapsed
            && ParseTimeToSecs(Get(r, RelativeTimePosition)) == elapsed
            && ParseTimeToSecs(Get(r, AbsoluteTimePosition)) == elapsed
  {
    assert Pow10(4) == 10000 && Pow10(7) == 10000000;
    NatToStringLength(songPos + 1, 4);
    AtoiOfIntToString(songPos + 1);
    NatToStringLength(elapsed, 7);
    AtoiOfIntToString(elapsed);
    HmsTextRoundTrip(elapsed);
  }

  /** The MPD player state the AVTransport state follows; an unknown player state has none. */
  function MapState(m: MpdState): (r: Option<PlayState>)
    ensures r.None? <==> m == MpdUnknown
    ensures r.Some? ==> r.value in {Stopped, Playing, PausedPlayback}
  {
    match m
    case MpdUnknown => None
    case MpdStop => Some(Stopped)
    case MpdPlay => Some(Playing)
    case MpdPause => Some(PausedPlayback)
  }

  /** Different player states never map to the same AVTransport state. */
  lemma MapStateInjective(a: MpdState, b: MpdState)
    requires MapState(a).Some? && MapState(a) == MapState(b)
    ensures a == b
  {
  }

  /** The state part of update_mpd_status: a known player state sets the state and its text. */
  function ApplyMpdState(t: Transport, m: MpdState): (r: Transport)
    requires Valid(t)
    ensures Valid(r)
    ensures MapState(m).None? ==> r == t
    ensures MapState(m).Some? ==> r.cell == Known(MapState(m).value) && Mirrors(r)
    ensures Mirrors(t) ==> Mirrors(r)
    ensures forall i :: 0 <= i < VarUnknown && i != VarIndex(TransportState) ==> r.store[i] == t.store[i]
  {
    match MapState(m)
    case None => t
    case Some(st) => SetState(t, st, StateName(st))
  }

  /** The track duration update_mpd_status settles on: song, else status, else the stored text. */
  function ChosenDuration(s: Store, st: MpdStatus, song: Song): (d: int)
    requires ValidStore(s)
    ensures song.duration != 0 ==> d == song.duration
    ensures song.duration == 0 && st.totalTime != 0 ==> d == st.totalTime
    ensures song.duration == 0 && st.totalTime == 0 ==> d == ParseTimeToSecs(Get(s, CurrentTrackDuration))
  {
    if song.duration != 0 then song.duration
    else if st.totalTime != 0 then st.totalTime
    else ParseTimeToSecs(Get(s, CurrentTrackDuration))
  }

  /** The duration part of update_mpd_status: the stored text changes only for a non-zero MPD value. */
  function AdoptDuration(s: Store, st: MpdStatus, song: Song): (r: Store)
    requires ValidStore(s) && Initialized(s)
    ensures ValidStore(r) && Initialized(r)
    ensures song.duration == 0 && st.totalTime == 0 ==> r == s
    ensures song.duration != 0 || st.totalTime != 0 ==> Get(r, CurrentTrackDuration) == Some(HmsText(ChosenDuration(s, st, song)))
    ensures forall i :: 0 <= i < VarUnknown && i != VarIndex(CurrentTrackDuration) ==> r[i] == s[i]
  {
    if song.duration == 0 && st.totalTime == 0 then s
    else SetVar(s, CurrentTrackDuration, Some(HmsText(ChosenDuration(s, st, song))))
  }

  /**
   * The URI part of update_mpd_status: with no AVTransport URI, the song's
   * URI becomes both the track and the AVTransport URI, and metadata may be
   * synthesized for it.
   */
  function AdoptUri(s: Store, song: Song): (r: Store)
    requires ValidStore(s) && Initialized(s)
    ensures ValidStore(r) && Initialized(r)
    ensures Blank(Get(s, AVTransportURI)) && song.uri.Some? ==>
              Get(r, CurrentTrackURI) == song.uri && Get(r, AVTransportURI) == song.uri
    ensures !(Blank(Get(s, AVTransportURI)) && song.uri.Some?) ==> r == s
    ensures forall i :: 0 <= i < VarUnknown && i != VarIndex(CurrentTrackURI) && i != VarIndex(AVTransportURI)
              && i != VarIndex(CurrentTrackMetaData) && i != VarIndex(AVTransportURIMetaData)
              ==> r[i] == s[i]
  {
    if Blank(Get(s, AVTransportURI)) && song.uri.Some? then
      GetTrackMetadata(SetUris(s, song.uri.value), song.tags)
    else s
  }

  /** The song URI stored as both the track and the AVTransport URI. */
  function SetUris(s: Store, uri: string): (r: Store)
    requires ValidStore(s) && Initialized(s)
    ensures ValidStore(r) && Initialized(r)
    ensures Get(r, CurrentTrackURI) == Some(uri) && Get(r, AVTransportURI) == Some(uri)
    ensures forall i :: 0 <= i < VarUnknown && i != VarIndex(CurrentTrackURI) && i != VarIndex(AVTransportURI)
              ==> r[i] == s[i]
  {
    SetVar(SetVar(s, CurrentTrackURI, Some(uri)), AVTransportURI, Some(uri))
  }

  /** The variables the song part of update_mpd_status may write. */
  predicate SongVar(v: TransportVar) {
    || v == CurrentTrackDuration || v == CurrentTrackURI || v == AVTransportURI
    || v == CurrentTrackMetaData || v == AVTransportURIMetaData
  }

  /** Two stores agree on the variables the song part writes. */
  predicate SameSongVars(r: Store, a: Store)
    requires ValidStore(r) && ValidStore(a)
  {
    && Get(r, CurrentTrackDuration) == Get(a, CurrentTrackDuration)
    && Get(r, CurrentTrackURI) == Get(a, CurrentTrackURI) && Get(r, AVTransportURI) == Get(a, AVTransportURI)
    && Get(r, CurrentTrackMetaData) == Get(a, CurrentTrackMetaData)
    && Get(r, AVTransportURIMetaData) == Get(a, AVTransportURIMetaData)
  }

  /**
   * The song part of update_mpd_status: the duration text is rewritten when
   * MPD reports a duration; with no AVTransport URI the song's URI fills
   * both URIs, and metadata is synthesized when there is none, the URI is
   * not empty and the song has a title or a name. Nothing else changes.
   */
  function AdoptSong(s: Store, st: MpdStatus, song: Song): (r: Store)
    requires ValidStore(s) && Initialized(s)
    ensures ValidStore(r) && Initialized(r)
    ensures song.duration != 0 || st.totalTime != 0 ==>
              Get(r, CurrentTrackDuration) == Some(HmsText(ChosenDuration(s, st, song)))
    ensures song.duration == 0 && st.totalTime == 0 ==> Get(r, CurrentTrackDuration) == Get(s, CurrentTrackDuration)
    ensures Blank(Get(s, AVTransportURI)) && song.uri.Some? ==>
              Get(r, CurrentTrackURI) == song.uri && Get(r, AVTransportURI) == song.uri
    ensures !(Blank(Get(s, AVTransportURI)) && song.uri.Some?) ==>
              && Get(r, CurrentTrackURI) == Get(s, CurrentTrackURI) && Get(r, AVTransportURI) == Get(s, AVTransportURI)
              && Get(r, CurrentTrackMetaData) == Get(s, CurrentTrackMetaData)
              && Get(r, AVTransportURIMetaData) == Get(s, AVTransportURIMetaData)
    ensures Blank(Get(s, AVTransportURI)) && song.uri.Some? && song.uri.value != ""
            && Blank(Get(s, AVTransportURIMetaData)) && SynthesizeFields(song.tags).Some? ==>
              var doc := Didl(SynthesizeFields(song.tags).value, Get(r, CurrentTrackDuration).value, song.uri.value);
              Get(r, CurrentTrackMetaData) == Some(doc) && Get(r, AVTransportURIMetaData) == Some(doc)
    ensures forall v: TransportVar :: !SongVar(v) ==> Get(r, v) == Get(s, v)
  {
    var d := AdoptDuration(s, st, song);
    assert Get(d, AVTransportURI) == Get(s, AVTransportURI);
    assert Get(d, AVTransportURIMetaData) == Get(s, AVTransportURIMetaData);
    AdoptUri(d, song)
  }

  /** The variables update_mpd_status may write: the song's, the position's and TransportState. */
  predicate StatusVar(v: TransportVar) {
    || SongVar(v) || v == TransportState || v == CurrentTrack
    || v == RelativeCounterPosition || v == AbsoluteCounterPosition
    || v == RelativeTimePosition || v == AbsoluteTimePosition
  }

  /** A status reply: the status and, when the queue is not empty, the current song. */
  datatype StatusReply = StatusReply(status: MpdStatus, song: Option<Song>)

  /**
   * update_mpd_status: a failed exchange (None) changes nothing; otherwise
   * the song's duration, URI and metadata are adopted, the volume is taken
   * over, the state follows a known player state, and the position is stored.
   */
  function UpdateMpdStatus(t: Transport, p: Player, reply: Option<StatusReply>): (r: (Transport, Player))
    requires Valid(t) && Initialized(t.store)
    ensures Valid(r.0) && Initialized(r.0.store)
    ensures reply.None? ==> r == (t, p)
    ensures Mirrors(t) ==> Mirrors(r.0)
    ensures reply.Some? ==>
              SameSongVars(r.0.store, match reply.value.song
                                      case Some(song) => AdoptSong(t.store, reply.value.status, song)
                                      case None => t.store)
    ensures reply.Some? ==>
              var st := reply.value.status;
              && Get(r.0.store, CurrentTrack) == Some(Truncate(IntToString(st.songPos + 1), 5))
              && Get(r.0.store, RelativeCounterPosition) == Some(Truncate(IntToString(st.elapsed), 9))
              && Get(r.0.store, AbsoluteCounterPosition) == Get(r.0.store, RelativeCounterPosition)
              && Get(r.0.store, RelativeTimePosition) == Some(HmsText(st.elapsed))
              && Get(r.0.store, AbsoluteTimePosition) == Get(r.0.store, RelativeTimePosition)
    ensures forall v: TransportVar :: !StatusVar(v) ==> Get(r.0.store, v) == Get(t.store, v)
    ensures reply.Some? ==>
              && r.1.volume == reply.value.status.volume
              && r.1.muteVolume == p.muteVolume
              && r.1.trackDuration == (match reply.value.song
                                       case Some(song) => ChosenDuration(t.store, reply.value.status, song)
                                       case None => p.trackDuration)
              && r.0.cell == (match MapState(reply.value.status.state)
                              case Some(st) => Known(st)
                              case None => t.cell)
  {
    match reply
    case None => (t, p)
    case Some(rep) =>
      var st := rep.status;
      var (s1, dur) := match rep.song
                       case Some(song) => (AdoptSong(t.store, st, song), ChosenDuration(t.store, st, song))
                       case None => (t.store, p.trackDuration);
      var t2 := ApplyMpdState(Transport(t.cell, s1), st.state);
      var s3 := UpdateTrackPosition(t2.store, st.songPos, st.elapsed);
      (Transport(t2.cell, s3), p.(volume := st.volume, trackDuration := dur))
  }
}
