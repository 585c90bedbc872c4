# UPnPMPD renderer core in Dafny

This project models the control plane of the UPnPMPD MediaRenderer. The
renderer is a UPnP AV device that exposes three services: AVTransport,
ConnectionManager and RenderingControl. It drives an MPD music server
through the MPD output adapter. The model covers the following parts:

- **Common**: the C library routines the core leans on. `strtol` and
  `atoi` parse numbers, `"%d"` prints them, and `snprintf` truncates to
  its buffer. Nullable `char *` values are an `Option`.
- **TransportDefs** (`upnp_transport.h`): the five playback states, the
  dense variable and action enums, and the error codes 701..718.
- **Device** (`upnp_device.c`): the generic action framework.
  - `get_service_var` reads a variable, with its default.
  - `upnp_add_response` and `upnp_append_variable` build the answer.
  - `upnp_set_error`, `upnp_get_string` and `upnp_obtain_instanceid`
    check and record errors.
  - `handle_action_request` dispatches an action to its handler.
  - `handle_subscription_request` builds the evented-variable snapshot a
    new subscriber is sent.
- **TransportStore** (`upnp_transport.c`, store part): the AVTransport
  variable array and its name, default and evented tables. It covers:
  - the idempotent `transport_set_var`, and `transport_set_state`;
  - the state cell, which starts at the unknown -1;
  - the LastChange documents built by `transport_change_var` and
    `transport_get_state_lastchange`, and notified by
    `transport_notify_lastchange` and `transport_notify_subscription`.
- **Mpd** (`output_mpd.c`): the logic the adapter applies around its MPD
  calls.
  - Time parsing (`parsetimetosecs`) and hh:mm:ss formatting.
  - The seek clamp and the play-mode command mapping.
  - Volume and mute bookkeeping.
  - Synthesis of DIDL-Lite metadata.
  - `update_track_position`, and the status refresh `update_mpd_status`.
    The refresh copies MPD's state, duration, URI, metadata and position
    into the AVTransport store.
- **AvTransport** (`upnp_transport.c`, handlers): every AVTransport
  action handler, as a pure function. It takes the service state, the
  action event and what MPD answers. It returns five things:
  - the return value;
  - the new state;
  - the event, with its outputs or error;
  - the LastChange documents notified;
  - the MPD commands sent.

  The module also models the action table and serving one request
  through the framework.
- **ConnMgr** (`upnp_connmgr.c`): the registry of MIME types, newest
  first, and the `SinkProtocolInfo` text that `connmgr_init` builds from
  it, including its buffer arithmetic. Also its three action handlers,
  its dispatch, and its subscription snapshot.
- **Renderer** (`upnp_renderer.c`): the NULL-terminated service table and
  the built-in device description. It covers:
  - the configuration overrides of `upnp_renderer_new`;
  - merging the MAC address into the UDN;
  - the start-up sequence `upnp_renderer_init` / `upnp_device_init`.

The following are parameters of the model rather than behaviour it
computes:

- Network exchanges with MPD. The `connected` flag stands for
  `check_mpd_connection`. A success flag or a status reply stands for
  each command.
- libupnp's answers: `UpnpAddToActionResponse`, `UpnpAcceptSubscription`
  and the start-up calls.
- Allocation failure.
- XML escaping, which is a function parameter.
- The `duration` attribute the metadata parser finds.

## Model

| member | source | states |
|---|---|---|
| Common.Strtol | src/output_mpd.c:186-190 | strtol base 10: the end index stays inside the string; when nothing is converted the value is 0 and the end is the start; otherwise the end sits just past the last digit read, and the next character is not a digit |
| Common.StrtolOfDigitsThen | src/output_mpd.c:186-190 | strtol reads exactly a leading run of digits, with its decimal value, and stops at the first non-digit |
| Common.IntToString | src/output_mpd.c:745-750 | "%d" prints a non-empty text that starts with '-' exactly when the number is negative |
| Common.ToInt32 | src/upnp_device.c:211 | the (int) narrowing inside atoi: the result fits 32 bits, agrees with its operand modulo 2^32, and is the operand itself whenever that fits |
| Common.AtoiOfIntToString | src/output_mpd.c:554 | atoi reads back what "%d" printed, narrowed to int: the number itself whenever it fits 32 bits |
| Common.AtoiOfNonNumeric | src/upnp_device.c:211 | atoi of text that does not start with white space, a sign or a digit is 0, and no error is reported |
| Common.Truncate | src/output_mpd.c:758 | snprintf keeps a prefix of the text, of length min(len, size) |
| TransportDefs.StateOfOrdinal | src/upnp_transport.h:107-116 | exactly the enum values 0..4 name a state, and the lookup inverts the enum numbering |
| TransportDefs.PlayStatesAreFive | src/upnp_transport.h:107-116 | there are five states, numbered 0..4 in declaration order, and the recording states are commented out |
| TransportDefs.StateOfName | src/upnp_transport.c:128-138 | a state found by its TransportState text has that text |
| TransportDefs.StateNamesRoundTrip | src/upnp_transport.c:128-138 | every state is found again from its text; "RECORDING" and "PAUSED_RECORDING" name no state |
| TransportDefs.VarIndex | src/upnp_transport.h:47-82 | each variable's enum value lies below TRANSPORT_VAR_UNKNOWN |
| TransportDefs.CmdIndex | src/upnp_transport.h:84-105 | each action's enum value lies below TRANSPORT_CMD_UNKNOWN and indexes that action |
| TransportDefs.CmdOfName | src/upnp_transport.c:1138-1158 | a name finds the action registered under it, and finds nothing exactly when no action has that name |
| TransportDefs.CmdIndicesDense | src/upnp_transport.h:84-105 | the action indices are dense and invertible; SetNextAVTransportURI, Record and SetRecordQualityMode are not registered |
| TransportDefs.ErrorOfCode | src/upnp_transport.h:28-45 | exactly the codes 701..718 name an error, and the lookup inverts the numbering |
| TransportDefs.ErrorCodesConsecutive | src/upnp_transport.h:28-45 | the eighteen error codes are distinct and fill 701..718 in order |
| Device.GetServiceVar | src/upnp_device.c:57-79 | a variable reads as its value; if that is NULL, as its default when the defaults array has a non-NULL one; otherwise as "" |
| Device.SetError | src/upnp_device.c:141-153 | the event fails, the response is dropped, and the SOAP error becomes Action Failed with the message; the request document is kept |
| Device.SetErrorIgnoresCode | src/upnp_device.c:141-153 | the error code a handler passes makes no difference to the recorded error |
| Device.AddResponse | src/upnp_device.c:82-107 | after an error nothing is appended and the result is -1; otherwise exactly one output is appended; if libupnp fails, the response is dropped and Action Failed is recorded |
| Device.NoResponseAfterError | src/upnp_device.c:82-107 | once an error is recorded, any number of further appends leave the event unchanged |
| Device.AppendVariable | src/upnp_device.c:109-138 | an out-of-range variable records an error and drops the response; otherwise the variable's current text is appended under the given name |
| Device.AppendChainOutputs | src/upnp_transport.c:453-492 | a handler's goto-out chain of appends, started cleanly, returns 0 and appends every listed variable's value in order; started after an error it returns -1 and changes nothing |
| Device.FindArg | src/upnp_device.c:156-194 | finds the first argument element with the name, or reports that none has it |
| Device.ArgText | src/upnp_device.c:156-194 | the text of the first argument with the name ("" when the element is empty); absent exactly when there is no such argument |
| Device.GetString | src/upnp_device.c:156-194 | returns that argument text; a missing argument records Invalid Args (reported as Action Failed) and drops the response, while a present one leaves the event unchanged |
| Device.ObtainInstanceId | src/upnp_device.c:196-219 | returns 0 exactly when InstanceID is present and atoi of it, narrowed to int, is 0, and -1 otherwise; only a missing InstanceID records an error |
| Device.WrappedInstanceIsZero | src/upnp_device.c:211-218 | because atoi narrows to int, an InstanceID of 4294967296 is accepted as instance 0 |
| Device.NonNumericInstanceIsZero | src/upnp_device.c:196-219 | an InstanceID whose text is not a number counts as instance 0 |
| Device.Dispatch | src/upnp_device.c:310-363 | an unknown action gives 401 and -1; an action without a handler succeeds and changes nothing else; otherwise the handler runs on a fresh event, and only its return value decides whether ErrCode is reset to success |
| Device.Answer | src/upnp_device.c:335-348 | after the handler runs: a zero return means success, otherwise the handler's error is kept; a NULL response becomes an empty one, and the request always counts as handled |
| Device.ErrorIgnoredWhenHandlerReturnsZero | src/upnp_device.c:335-348 | a handler that records an error but returns 0 is reported as a success with an empty response |
| Device.EventedIndicesExact | src/upnp_device.c:252-278 | the evented list holds exactly the evented variables, each once, in index order |
| Device.EventedIndicesSingle | src/upnp_device.c:252-278 | when one variable alone is evented, it is the whole list |
| Device.SnapshotOfSingle | src/upnp_device.c:264-278 | with one evented variable, the snapshot is its name and escaped value |
| Device.CountEvented | src/upnp_device.c:252-258 | the counting pass counts the evented variables |
| Device.BuildSnapshot | src/upnp_device.c:252-278 | the two passes yield the evented variables' names and escaped values, and their count |
| Device.SnapshotPointwise | src/upnp_device.c:264-278 | name and value lists that agree entry by entry with the evented variables are the snapshot |
| Device.HandleSubscription | src/upnp_device.c:221-308 | an unknown service is refused with -1; otherwise the notify routine runs first, the snapshot is the evented variables' names and escaped values of the notified table, with their count, and the result is 0 exactly when libupnp accepts |
| TransportStore.SetVar | src/upnp_transport.c:522-541 | a NULL value, or one equal to the stored value, leaves the store as it is; otherwise the variable holds the new value and every other slot is unchanged |
| TransportStore.SetVarIdempotent | src/upnp_transport.c:522-541 | storing a value twice is the same as storing it once |
| TransportStore.SetVarCommutes | src/upnp_transport.c:522-541 | stores to different variables commute |
| TransportStore.SetState | src/upnp_transport.c:550-556 | the state becomes known, TransportState holds the given text, and nothing else changes |
| TransportStore.Init | src/upnp_transport.c:1180-1193 | the state is the unknown -1; the five variables transport_init sets hold their defaults, and every other slot is NULL |
| TransportStore.SetVarKeepsInitialized | src/upnp_transport.c:522-541 | stores never clear a value, so the variables set at init stay set |
| TransportStore.TableReads | src/upnp_device.c:57-79 | through the framework, a transport variable reads as its stored value, or else its default |
| TransportStore.EmptyRenderIsDefault | src/upnp_transport.c:91-124 | a LastChange document with no entries is the LastChange default |
| TransportStore.EntryOf | src/upnp_transport.c:575-606 | an entry reports the variable's published name and its current value |
| TransportStore.StateEntries | src/upnp_transport.c:575-606 | the composite document lists state and status, and also URI, metadata and duration exactly when the track URI is not "" |
| TransportStore.StateLastChangeIgnoresLastChange | src/upnp_transport.c:575-606 | the composite document does not depend on LastChange itself |
| TransportStore.Notify | src/upnp_transport.c:495-520 | the payload replaces LastChange without a comparison, and nothing else changes |
| TransportStore.ChangeVar | src/upnp_transport.c:559-573 | the variable takes the value, and a one-entry document with its name and new value is notified and kept in LastChange; nothing else changes |
| TransportStore.SubscriptionNotify | src/upnp_transport.c:1125-1136 | LastChange becomes the composite document of the current store, and nothing else changes |
| TransportStore.TransportService | src/upnp_transport.c:1161-1178 | the framework sees the store's table and a notify routine |
| TransportStore.OnlyLastChangeEvented | src/upnp_transport.c:253-286 | LastChange, index 26, is the only evented variable |
| TransportStore.NotifiedTransport | src/upnp_transport.c:1125-1136 | the table a subscriber sees is the one after the notify routine stored the composite document |
| TransportStore.TransportSnapshot | src/upnp_device.c:264-278 | whatever the store holds, the snapshot is LastChange alone |
| TransportStore.SubscriberSeesComposite | src/upnp_device.c:221-308 | a new AVTransport subscriber is shown exactly LastChange, holding the escaped composite document of the current store |
| Mpd.ParseTimeToSecs | src/output_mpd.c:177-193 | NULL gives 0; for "" the C code steps past the terminator, and the model's choice of 0 is listed under Left out |
| Mpd.ParseFromFields | src/output_mpd.c:177-193 | the result is hours*3600 + minutes*60 + seconds, each read by strtol, with exactly one character skipped between fields |
| Mpd.ParseThreeFields | src/output_mpd.c:177-193 | three digit fields separated by single characters parse to their weighted sum |
| Mpd.ParseFormatHms | src/output_mpd.c:177-193 | parsetimetosecs reads back any time that "%02d:%02d:%02d" printed |
| Mpd.ParseIgnoresFraction | src/output_mpd.c:177-193 | a fraction after the seconds, as DIDL-Lite durations carry, is ignored |
| Mpd.SecondsToHms | src/output_mpd.c:755-757 | under C division the fields add back up to the value; for a non-negative value, minutes and seconds are below 60 |
| Mpd.HmsTextRoundTrip | src/output_mpd.c:755-758 | a position stored as hh:mm:ss in the 10-byte buffer parses back to the seconds, for every value under 1000 hours |
| Mpd.ClampSeek | src/output_mpd.c:378-449 | the target is clamped into 0..duration; targets already inside are kept |
| Mpd.OutputSeekTo | src/output_mpd.c:378-449 | a seek is sent exactly when connected, a status is read and the player is not stopped; it targets the current song at the clamped parsed time; the result is 0 exactly when that seek succeeds |
| Mpd.PlayModeFlags | src/output_mpd.c:451-540 | exactly NORMAL, REPEAT-ONE, DIRECT_1, REPEAT-ALL and RANDOM have switches |
| Mpd.ModeOfFlags | src/output_mpd.c:451-540 | a mode name found for a set of switches maps back to those switches |
| Mpd.PlayModeFlagsInvert | src/output_mpd.c:451-540 | every known mode has its own switches, so the mapping can be read backwards |
| Mpd.OutputPlaymode | src/output_mpd.c:451-540 | with a connection, a known mode's switches are sent; the result is 0 exactly when connected, the mode is known and the command list succeeds |
| Mpd.AllowedRepeatModesRejected | src/upnp_transport.c:184-194 | the allowed values REPEAT_ONE and REPEAT_ALL are unknown to the adapter, which spells them with hyphens, so both always fail |
| Mpd.SetVolume | src/output_mpd.c:542-583 | atoi of the text, narrowed to int and clamped to 0..100, becomes both the current and the restore volume unless the server rejects it; NULL text or no connection changes nothing |
| Mpd.WrappedVolumeClampsToZero | src/output_mpd.c:554-558 | because atoi narrows to int, the text "4294967295" reads as -1 and sets volume 0 |
| Mpd.SetMute | src/output_mpd.c:585-624 | muting saves the current volume, even if the server then fails, and sets 0; unmuting restores the saved volume; a server error keeps the current volume |
| Mpd.VolumeMuteUnmute | src/output_mpd.c:542-624 | setting a volume, then muting and unmuting, ends at the clamped volume |
| Mpd.FailedMuteKeepsRestoreVolume | src/output_mpd.c:585-624 | after a failed mute, a later unmute still restores the earlier volume |
| Mpd.GetVolume | src/output_mpd.c:626-631 | the volume text fits the 6-byte buffer |
| Mpd.GetVolumeRoundTrip | src/output_mpd.c:626-631 | any volume 0..100 reads back through atoi |
| Mpd.SynthesizeFields | src/output_mpd.c:673-734 | metadata exists exactly when there is a title or a name; a missing title takes the name; a missing album takes the name only when there is a title; artist, track and date get their fixed fillers |
| Mpd.Didl | src/output_mpd.c:637-651 | the document opens with the template's header followed by the title |
| Mpd.DidlTail | src/output_mpd.c:637-651 | after the title the template has six more holes, for album, artist, track, date, duration and URI |
| Mpd.GetTrackMetadata | src/output_mpd.c:673-734 | when there is no AVTransport metadata, a URI is known and the song has a title or a name, the synthesized document becomes both metadata variables; otherwise nothing changes |
| Mpd.UpdateTrackPosition | src/output_mpd.c:737-763 | CurrentTrack is the queue position plus one; both counters hold the elapsed seconds as text; both time positions hold its hh:mm:ss form; only these five variables change |
| Mpd.TrackPositionRoundTrip | src/output_mpd.c:737-763 | within the buffer sizes, the stored position reads back as the queue position plus one and as the elapsed seconds |
| Mpd.MapState | src/output_mpd.c:849-870 | stop, play and pause map to STOPPED, PLAYING and PAUSED_PLAYBACK; an unknown player state maps to nothing |
| Mpd.MapStateInjective | src/output_mpd.c:849-870 | different player states never give the same AVTransport state |
| Mpd.ApplyMpdState | src/output_mpd.c:849-870 | a known player state sets the state together with its text; an unknown one changes nothing |
| Mpd.ChosenDuration | src/output_mpd.c:807-822 | the song's duration wins, then the status's total time, then the stored text parsed back |
| Mpd.AdoptDuration | src/output_mpd.c:807-822 | the duration text is rewritten only when MPD reports a non-zero duration, and then it is the hh:mm:ss of the chosen value |
| Mpd.AdoptUri | src/output_mpd.c:825-837 | with no AVTransport URI, the song's URI becomes both URIs and metadata may be synthesized; otherwise nothing changes |
| Mpd.AdoptSong | src/output_mpd.c:807-837 | the duration text becomes the hh:mm:ss of the chosen duration when MPD reports one; with no AVTransport URI the song's URI fills both URIs, and when there is no metadata, the URI is not empty and the song has a title or a name, the synthesized document fills both metadata variables; no other variable changes |
| Mpd.UpdateMpdStatus | src/output_mpd.c:766-877 | a failed exchange changes nothing; otherwise the duration, URI and metadata variables are as the song part leaves them (untouched with no song); CurrentTrack, both counters and both time positions hold the reported position; the volume is taken over, the restore volume is kept, and the duration follows song or status; the state follows a known player state, and the state text keeps agreeing with the state; every other variable (play mode, status, track count, next URI, LastChange, …) keeps its value |
| AvTransport.HandleStop | src/upnp_transport.c:884-930 | non-zero instance is refused first; unconnected gives -1 with no change; unknown or STOPPED does nothing; NO_MEDIA_PRESENT records 701 yet returns 0; otherwise the stop goes to MPD and on success the transport is STOPPED with one notification |
| AvTransport.HandlePause | src/upnp_transport.c:932-988 | PLAYING pauses and PAUSED_PLAYBACK resumes through MPD; unknown or STOPPED does nothing; TRANSITIONING and NO_MEDIA_PRESENT record 701 yet return 0; a rejected command records the failure and changes nothing |
| AvTransport.HandlePlay | src/upnp_transport.c:990-1041 | PLAYING does nothing; STOPPED and PAUSED_PLAYBACK start through MPD; NO_MEDIA_PRESENT and TRANSITIONING record 701 and return -1; unknown does nothing |
| AvTransport.HandleSkip | src/upnp_transport.c:1083-1123 | Next and Previous send their command; on success they only refresh from MPD's status and notify nothing; a rejection records the failure and changes nothing |
| AvTransport.HandleSeek | src/upnp_transport.c:1043-1081 | Unit and Target are required; the current song is sought to the clamped target; a failure, a stopped player included, records the seek error; the transport state never changes |
| AvTransport.HandleSetPlayMode | src/upnp_transport.c:847-882 | the mode's switches go to MPD; success stores and notifies CurrentPlayMode; a rejection records "Set playmode failed" and leaves everything alone |
| AvTransport.ChangeMode | src/upnp_transport.c:559-573 | CurrentPlayMode holds the new mode and LastChange the one-entry document reporting it; the state and the other variables are unchanged |
| AvTransport.HandleSetUri | src/upnp_transport.c:646-703 | the URI goes to MPD when it is connected, and is stored verbatim either way; the transport ends STOPPED with the composite document notified; a missing URI changes nothing; a missing metadata argument returns -1 after all that |
| AvTransport.UriStored | src/upnp_transport.c:646-703 | URI, metadata and the duration found in it are stored; TransportState is "STOPPED"; LastChange holds the composite document built from the result; the duration is kept when no metadata or no duration in it is found, the metadata is kept when none is sent, and every other variable keeps its value |
| AvTransport.StoreRequest | src/upnp_transport.c:666-689 | the URI is stored; when metadata is present, it and its duration are stored too; without metadata only the URI changes; when metadata carries no duration the stored duration is kept; nothing outside the URI, metadata and duration changes |
| AvTransport.StopAndNotify | src/upnp_transport.c:695-698 | TransportState becomes "STOPPED", then the composite document is built, stored and notified; nothing else changes |
| AvTransport.ChainAnswers | src/upnp_transport.c:453-492 | a getter's chain over the transport store lists every output's current text, or adds nothing after an error |
| AvTransport.Getter | src/upnp_transport.c:443-493 | a request not for instance 0 records 718 and returns -1; otherwise the outputs are listed in order |
| AvTransport.HandleGetMediaInfo | src/upnp_transport.c:443-493 | instance check, then the nine media outputs |
| AvTransport.HandleGetTransportInfo | src/upnp_transport.c:731-755 | continues after a bad InstanceID, so its outputs are dropped; otherwise state, status and speed |
| AvTransport.HandleGetTransportSettings | src/upnp_transport.c:757-777 | instance check, then play mode and record quality |
| AvTransport.HandleGetPositionInfo | src/upnp_transport.c:779-830 | the position is first refreshed from MPD's status, when there is one; then the eight position outputs are read; nothing else changes |
| AvTransport.HandleGetDeviceCapabilities | src/upnp_transport.c:832-845 | checks the instance and returns nothing |
| AvTransport.PositionInfoReportsStatus | src/upnp_transport.c:779-830 | Track reads back as the queue position plus one, and RelTime and RelCount as the elapsed seconds MPD reported |
| AvTransport.Handle | src/upnp_transport.c:1138-1158 | every action has a callback except GetCurrentTransportActions |
| AvTransport.Serve | src/upnp_device.c:310-363 | an unknown name is answered with 401 and touches nothing; GetCurrentTransportActions succeeds and touches nothing; otherwise the handler runs, and its return value decides success |
| AvTransport.PauseTwiceResumes | src/upnp_transport.c:932-988 | Pause twice on a playing transport is PLAYING again, and only LastChange differs |
| AvTransport.UnknownStateIgnoresPlayback | src/upnp_transport.c:441 | until MPD's status first sets the state, Play, Pause and Stop do nothing |
| ConnMgr.ConnTable | src/upnp_connmgr.c:176-189 | the connection manager's ten variables form a well-formed table |
| ConnMgr.ConnTableReads | src/upnp_device.c:57-79 | through the framework, a variable reads as its value or else its default |
| ConnMgr.DefaultsAllowed | src/upnp_connmgr.c:143-174 | the default status and direction are among their allowed values |
| ConnMgr.Registered | src/upnp_connmgr.c:201-218 | a known type changes nothing; a new one is put at the head; the contents are the old ones plus the type, and stay duplicate-free |
| ConnMgr.RegisterInternal | src/upnp_connmgr.c:201-218 | the walk over the list registers exactly as Registered says |
| ConnMgr.RegisterType | src/upnp_connmgr.c:220-227 | the type is registered, and audio/mpeg brings the audio/x-mpeg alias with it; nothing else is added |
| ConnMgr.RegisterAll | src/output_mpd.c:972-978 | registering a list adds exactly its types, plus the alias, with no duplicates |
| ConnMgr.RegisterAllSnoc | src/output_mpd.c:972-978 | registering one more type is one more register call on the result |
| ConnMgr.AdapterRegistry | src/output_mpd.c:970-978 | the adapter's registry holds exactly its MIME types plus audio/x-mpeg, with no duplicates |
| ConnMgr.SinkInfo | src/upnp_connmgr.c:241-281 | there is a sink text exactly when the registry is not empty |
| ConnMgr.BuildSinkInfo | src/upnp_connmgr.c:241-281 | the loop joins "http-get:*:<type>:*" entries with commas, and its buffer size is one more than the text's length |
| ConnMgr.ConnMgrInit | src/upnp_connmgr.c:229-283 | a non-empty registry whose buffer cannot be allocated gives -1; otherwise SinkProtocolInfo is the joined entries and every other variable reads as its default |
| ConnMgr.EmptyRegistryKeepsDefault | src/upnp_connmgr.c:229-283 | with no types, SinkProtocolInfo keeps its default |
| ConnMgr.HandleGetProtocolInfo | src/upnp_connmgr.c:286-292 | appends Source then Sink and returns the event status |
| ConnMgr.HandleGetCurrentConnectionIds | src/upnp_connmgr.c:294-304 | always returns 0 and answers ConnectionIDs "0" |
| ConnMgr.ConnectionIdsAgree | src/upnp_connmgr.c:294-304 | the answer agrees with the CurrentConnectionIDs variable |
| ConnMgr.InfoOutputs | src/upnp_connmgr.c:311-355 | the info chain lists the seven variables' values in order |
| ConnMgr.HandleGetCurrentConnectionInfo | src/upnp_connmgr.c:311-355 | a missing ConnectionID records an error and returns -1; otherwise the seven outputs follow, whatever the ID |
| ConnMgr.StartedConnectionInfo | src/upnp_connmgr.c:311-355 | after init, the answers are the defaults: rcs 0, transport 0, ":::", "/", -1, Input, Unknown |
| ConnMgr.ConnCmdOfName | src/upnp_connmgr.c:358-366 | a name finds its action, or nothing exactly when no action has that name |
| ConnMgr.Serve | src/upnp_device.c:310-363 | an unknown action gives 401; otherwise the request counts as handled, with each action's outputs, or Action Failed for a missing ConnectionID |
| ConnMgr.ConnEvented | src/upnp_connmgr.c:176-189 | SinkProtocolInfo, SourceProtocolInfo and CurrentConnectionIDs are the evented variables |
| ConnMgr.SubscriberSeesProtocolInfo | src/upnp_device.c:221-308 | a subscriber is shown exactly those three variables with their escaped values |
| Renderer.Walk | src/upnp_device.c:416-421 | the walk visits the table's entries up to the first NULL, in order |
| Renderer.PublishedServices | src/upnp_renderer.c:58-63 | the device publishes AVTransport, ConnectionManager and RenderingControl, in that order |
| Renderer.MergeMac | src/upnp_renderer.c:153-166 | the length is kept, positions before 29 and from 41 on are untouched, and the six MAC octets land pairwise at 29..40 |
| Renderer.NoSeparatorCopied | src/upnp_renderer.c:153-166 | every merged position holds a MAC hex digit, never a separator |
| Renderer.TemplateMerge | src/upnp_renderer.c:99 | merging into the built-in UDN overwrites its second dash and keeps the stray final 'f' |
| Renderer.RenderDevice | src/upnp_renderer.c:88-104 | the built-in description has the template UDN and names itself after the package |
| Renderer.RendererNew | src/upnp_renderer.c:128-169 | the friendly name comes from the command line, else the configuration, else stays built in; six fields follow the configuration when set; the serial is unchanged; the MAC is merged into the UDN |
| Renderer.SerialArgumentIgnored | src/upnp_renderer.c:128-169 | the serial-number argument never affects the description |
| Renderer.RendererInit | src/upnp_renderer.c:119-126 | the transport starts in the unknown state, and the result is the connection manager's init result, with its sink text |
| Renderer.DeviceInit | src/upnp_device.c:388-475 | a failing init stops start-up with -1 before anything is registered; otherwise all three services are registered; the result is 0 exactly when init and libupnp both succeed |

## Left out

- I/O is not modelled: the MPD socket protocol, libupnp's SOAP and GENA
  transport, the web server, icons and description registration. Each
  exchange is a parameter.
- Mutexes and threads are not modelled. The handlers are atomic
  functions of the state.
- Memory management is not modelled: `malloc`, `strdup`, `free` and
  leaks.
- XML escaping is a function parameter. `xmlescape`'s character mapping
  is not part of this model.
- The metadata parser used by set_avtransport_uri is not modelled. It is
  the `durationOf` oracle.
- `find_service` and `find_action` are not visible in the modelled files.
  The lookup by exact name is modelled by `CmdOfName` and
  `ConnCmdOfName`.
- control_init and RenderingControl (upnp_control.c) are not part of this
  model. Rendering control's own state is left out.
- PACKAGE_NAME and PACKAGE_VERSION come from the build configuration.
  They are parameters.
- The test mode and the MPD reconnect logic of check_mpd_connection are
  not modelled. The connection check is a flag.
- Common.Strtol: does not model saturation at LONG_MAX/LONG_MIN.
- Mpd.ParseTimeToSecs: does not model the `int` narrowing of each strtol
  result, nor the `int` overflow of `hrs*3600` for huge hour fields. The
  integers are unbounded.
- Mpd.ParseTimeToSecs: when strtol stops at the end of the text, as for
  "", "5" or "1:2", the C code's `nptr++` steps past the terminating NUL
  and the next strtol reads outside the string. The model defines the
  rest after the end as empty, so such fields read as 0 (and "" gives 0).
  A client reaches this through Seek's Target.
- Mpd.HmsTextRoundTrip: stated only below 1000 hours, because beyond that
  the 10-byte buffer cuts the text.
- AvTransport.HandleSetPlayMode: requires NewPlayMode to be present when
  the instance is 0 and MPD is connected. A missing argument reaches
  output_playmode as NULL, and strcmp dereferences it.
- TransportStore.NotifyTable: the framework's view of the notify routine
  is defined only for initialized stores. On any other table it returns
  the table unchanged.
- TransportStore.SubscriptionNotify: does not model the
  output_update_status call that precedes the store. That refresh is
  `Mpd.UpdateMpdStatus`, a separate step.
- Device.AddResponse: UpnpAddToActionResponse is a parameter. The
  handlers always pass success, so its failure path appears only in
  AddResponse's own contract.
- ConnMgr.AdapterRegistry: states the registry's contents and that it has
  no duplicates, but not the concrete newest-first order of the
  registered types.
- Renderer.RendererNew: requires a MAC text of at least 17 characters. A
  shorter one is read past its end in the C code.
- Renderer.DeviceInit: the libupnp start-up calls are one success flag.
  The registered descriptions' XML is not modelled.
- Mpd.ParseTimeToSecs: its own contract covers only the NULL and empty
  cases. The general reading is stated by `Mpd.ParseFromFields`, and the
  round trip by `Mpd.ParseFormatHms`.
- Mpd.GetVolume: its own contract bounds only the text's length. What the
  text says is stated by `Mpd.GetVolumeRoundTrip`.
- Mpd.Didl: states the document's opening only. The remaining template
  pieces are stated by `Mpd.DidlTail` through their count, not their
  text.
- ConnMgr.ConnTable: states the table's shape only. What a variable
  reads as through the framework is stated by `ConnMgr.ConnTableReads`.
- TransportStore.TransportService: states the table and that a notify
  routine exists. What that routine does is stated by
  `TransportStore.NotifiedTransport`.
- AvTransport.Handle: states which actions have a callback. Each
  callback's behaviour is in its handler's own row.
- Renderer.RenderDevice: states the UDN and the names derived from the
  package. The fixed manufacturer, URL and serial texts are literal
  constants in its body.
