# Classroom streaming front end — a Dafny model of its players, chat, rating and token check

The system is the browser side of a live-classroom service. A teacher broadcasts from
`LiveCamera`. Students watch through one of three players:

- `VideoPlayer`, a dash.js controller with its own retry loop, stall watchdog, quality
  menu and keyboard shortcuts;
- `HLSVideoPlayer`, an hls.js controller with live-edge tracking and quality selection
  by rendition height;
- `DashPlayer`, a small DASH component with an error flag and a retry counter.

Students talk in `Chat` and rate the class with `Rating`. `lib/utils.ts` checks the HS256
signature of a JSON Web Token.

Every component is modelled as a pure transition system. React state and the observable
properties of the media element form one immutable record. Each event handler, timer
fire and engine callback becomes a function from state (and event data) to the next
state, together with the engine or socket calls it issues, as a list of commands. A
`Run` function folds a sequence of events. Properties about several calls are stated
over `Run`.

Files (one module each):

| file | module | models |
|---|---|---|
| `common.dfy` | `Common` | optional values; `Array.prototype.findIndex` |
| `text.dfy` | `Text` | the JavaScript string operations the components rely on: `trim`, `split`/`join`, `replace` of the first match, `Number.parseInt`, integer-to-string |
| `clock.dfy` | `Clock` | `formatTime`, shared by both full players |
| `audio.dfy` | `Audio` | volume and mute bookkeeping, identical in both full players |
| `video_player.dfy` | `VideoPlayer` | `components/VideoPlayer.tsx` |
| `hls_player.dfy` | `HlsPlayer` | `components/HLSVideoPlayer.tsx` |
| `dash_stream.dfy` | `DashStream` | `components/DashPlayer.tsx` |
| `rating.dfy` | `Rating` | `components/Rating.tsx` |
| `chat.dfy` | `Chat` | `components/Chat.tsx` |
| `live_camera.dfy` | `LiveCamera` | `components/LiveCamera.tsx` |
| `jwt.dfy` | `Jwt` | `verifyToken` in `lib/utils.ts` |

Outside effects become parameters or events:

- The HMAC-SHA256 computation and its base64 encoding are a function parameter
  `digest(secret, message)`. It returns `None` when the computation throws.
- The environment variable `JWT_SECRET` is a parameter.
- Clock readings (`new Date().valueOf()`) are event parameters.
- The engine's answers (`isDynamic()`, `getBitrateInfoListFor`, `hls.levels`) are event
  or function parameters.
- The socket's existence is a flag. `socket.emit` on a socket that does not exist yet
  throws, so the rest of that handler does not run.

## Model

| member | source | states |
|---|---|---|
| Common.FindIndex | components/HLSVideoPlayer.tsx:216-219 | the index of the first element equal to the target, -1 exactly when none is; no earlier element matches |
| Text.TrimEmptyIff | components/Chat.tsx:79 | `trim()` yields the empty string exactly when every character is JavaScript whitespace |
| Text.TrimStart | components/Chat.tsx:79 | the result is a suffix of the input; everything dropped is whitespace; the result does not start with whitespace |
| Text.TrimEnd | components/Chat.tsx:79 | the result is a prefix of the input; everything dropped is whitespace; the result does not end with whitespace |
| Text.RemoveFirst | components/HLSVideoPlayer.tsx:219 | `replace("p", "")` deletes only the first occurrence, and leaves a string without one unchanged |
| Text.DigitRunIsLongest | components/HLSVideoPlayer.tsx:219 | the digit run `parseInt` reads is the longest prefix of digits |
| Text.ParseIntWithoutDigits | components/HLSVideoPlayer.tsx:219 | `parseInt` of a text with no digit after whitespace and sign is NaN |
| Text.ParseIntOfDigits | components/HLSVideoPlayer.tsx:219 | `parseInt` of a run of decimal digits is their decimal value |
| Text.ParseIntOfNatToString | components/HLSVideoPlayer.tsx:219 | `parseInt` reads back exactly the number that integer-to-string wrote |
| Text.NatToStringValue | components/HLSVideoPlayer.tsx:240 | the decimal digits written for a number have that number as their value |
| Text.JoinSplit | lib/utils.ts:46 | joining the parts of `split` with the same separator gives the original string back |
| Text.SplitJoin | lib/utils.ts:46 | splitting a join of separator-free parts gives the parts back |
| Clock.JsRem60 | components/VideoPlayer.tsx:353 | JavaScript's `%` by 60 on numbers: the number less a whole multiple of 60, with the sign of the dividend and below 60 in magnitude, which is the truncated remainder |
| Clock.PadStart2 | components/VideoPlayer.tsx:354 | `padStart(2, "0")` leaves strings of length two or more alone and left-fills shorter ones with zeros |
| Clock.FormatTimeShape | components/VideoPlayer.tsx:351-355 | for a non-negative time the text is the minute count, a colon, and exactly two digits for the seconds 0..59 |
| Clock.FormatTimeNegative | components/VideoPlayer.tsx:351-355 | a negative time renders a sign on both sides ("-1:-30" for -30 s), except at a whole minute, where the seconds read "00" ("-1:00" for -60 s) |
| Clock.FormatTimeRoundTrip | components/HLSVideoPlayer.tsx:254-258 | reading the `m:ss` text back yields the whole seconds of the time |
| Audio.SetVolume | components/VideoPlayer.tsx:284-290 | a volume in [0, 1] becomes level and element volume and mutes exactly when 0; an out-of-range one throws and changes nothing |
| Audio.ToggleMute | components/VideoPlayer.tsx:292-302 | the mute flag flips and the stored level is kept; muting silences the element, unmuting restores the stored level |
| Audio.VolumeUp | components/VideoPlayer.tsx:251-254 | from a consistent volume, the arrow-up key raises the level by 0.1 capped at 1, unmuted |
| Audio.VolumeDown | components/VideoPlayer.tsx:255-258 | from a consistent volume, the arrow-down key lowers the level by 0.1 floored at 0, and mutes exactly when the level was at most 0.1 |
| Audio.ConsistentPreserved | components/HLSVideoPlayer.tsx:178-198 | volume changes and mute toggles keep the element at the level the slider shows |
| Audio.ToggleMuteTwice | components/HLSVideoPlayer.tsx:187-198 | two mute toggles restore the volume state exactly |
| VideoPlayer.ClampSeek | components/VideoPlayer.tsx:279 | the seek target lies in [0, duration]; in-range times are kept, later ones go to the end, negative ones to 0 |
| VideoPlayer.SeekTo | components/VideoPlayer.tsx:277-282 | a live stream ignores seeks; otherwise the element and the shown time move to the clamped target and nothing else changes |
| VideoPlayer.TogglePlay | components/VideoPlayer.tsx:266-275 | with an engine, the opposite of the shown state is issued and the state flips; without one nothing happens |
| VideoPlayer.ChangeQuality | components/VideoPlayer.tsx:321-349 | "auto" re-enables switching; a menu label disables it and selects the engine rendition with that label's bitrate (-1 if the engine lacks it); other labels issue nothing; the label is always recorded |
| VideoPlayer.NoStallNudgeWithoutEngine | components/VideoPlayer.tsx:168-181 | the stall watchdog starts with the dash.js player, so a tick before it exists does nothing |
| VideoPlayer.StallTick | components/VideoPlayer.tsx:171-180 | a playing element whose position equals the last sample is nudged forward 0.1 s; the sample is updated; a paused one is left alone |
| VideoPlayer.TimeUpdate | components/VideoPlayer.tsx:215-225 | the shown time and the watchdog sample both take the element's position |
| VideoPlayer.Retry | components/VideoPlayer.tsx:77-107 | with an engine, the source is reattached, play is issued and a one-shot 'playing' watch is armed |
| VideoPlayer.EngineError | components/VideoPlayer.tsx:156-161 | every engine error shows the "about to start" placeholder and retries at once |
| VideoPlayer.RetryTick | components/VideoPlayer.tsx:398-410 | the five-second interval retries exactly while the placeholder is shown |
| VideoPlayer.Playing | components/VideoPlayer.tsx:85-89 | a 'playing' event after a retry clears the placeholder and disarms the watch; otherwise nothing changes |
| VideoPlayer.StreamInitialized | components/VideoPlayer.tsx:135-147 | a dynamic stream becomes live and is played; a static one adopts the element's duration |
| VideoPlayer.ManifestTick | components/VideoPlayer.tsx:380-396 | the manifest is refreshed only while an engine exists and the element plays; the state is unchanged |
| VideoPlayer.KeyDown | components/VideoPlayer.tsx:227-264 | space and "k" act as the play button, "m" as the mute button; the left and right arrows seek 5 s back or forward, within [0, duration] and not at all when live; the up and down arrows step the volume keeping it consistent, and up always unmutes; other keys do nothing |
| VideoPlayer.MuteKeyTwiceRestores | components/VideoPlayer.tsx:292-302 | with the current mute flag, two presses of "m" restore the player exactly |
| VideoPlayer.MuteKeyAsWritten | components/VideoPlayer.tsx:227-264 | the "m" listener toggles from the mute flag it captured, not the current one, and changes nothing else |
| VideoPlayer.MuteKeyTwiceStaysMuted | components/VideoPlayer.tsx:239-242 | two presses of "m" with an unchanged listener leave an unmuted player muted |
| VideoPlayer.AudioStaysConsistent | components/VideoPlayer.tsx:284-302 | over any run of events, the element volume stays equal to what the slider shows |
| VideoPlayer.StepKeepsAudio | components/VideoPlayer.tsx:284-302 | a single event keeps the element volume equal to what the slider shows |
| VideoPlayer.StalledTwiceNudges | components/VideoPlayer.tsx:171-180 | two watchdog ticks with no movement in between nudge on the second tick |
| VideoPlayer.TimeUpdateThenTickNudges | components/VideoPlayer.tsx:218-221 | because 'timeupdate' also writes the sample, one tick right after it nudges a playing element |
| VideoPlayer.RetriesNeverStop | components/VideoPlayer.tsx:398-410 | any number of retry ticks without 'playing' keep the placeholder and reattach every time: the loop has no bound |
| VideoPlayer.ErrorRetryPlayingRecovers | components/VideoPlayer.tsx:156-161 | after an error and any number of retries the video is hidden, and the next 'playing' event shows it again |
| VideoPlayer.WatchSurvivesRetries | components/VideoPlayer.tsx:91 | the armed 'playing' watch stays armed through retry ticks |
| HlsPlayer.Initial | components/HLSVideoPlayer.tsx:69-74 | the player starts live exactly for status "live", with automatic quality and not behind |
| HlsPlayer.ChangeQuality | components/HLSVideoPlayer.tsx:208-226 | "auto" hands control back (-1); a label whose number is the height of some level selects the first such level; a label matching none changes nothing |
| HlsPlayer.LevelQuality | components/HLSVideoPlayer.tsx:235-243 | engine level -1 shows "auto", a listed level shows its height label, an unlisted one shows "undefinedp" |
| HlsPlayer.ElementSeek | components/HLSVideoPlayer.tsx:175 | the element takes an assigned time within [0, duration]: exactly when in range, 0 below, the duration above |
| HlsPlayer.SeekTo | components/HLSVideoPlayer.tsx:171-176 | a live stream ignores seeks; otherwise the handler assigns the requested time unclamped and the element lands within [0, duration], exactly at the time when it is in range |
| HlsPlayer.RewindStopsAtStart | components/HLSVideoPlayer.tsx:171-176 | a ten-second rewind near the start shows 0 at the next time update, and the time shown after any seek stays within the media |
| HlsPlayer.TimeUpdate | components/HLSVideoPlayer.tsx:289-307 | on a live stream the viewer is behind exactly when the gap to the edge exceeds 20 s; the shown time follows the element |
| HlsPlayer.GoToLive | components/HLSVideoPlayer.tsx:309-316 | the element jumps to its duration, play is issued and "behind" drops |
| HlsPlayer.TogglePlay | components/HLSVideoPlayer.tsx:160-169 | the opposite of the shown state is issued; the shown state waits for the element's events |
| HlsPlayer.MouseEnter | components/HLSVideoPlayer.tsx:321-324 | the pointer entering the player shows the control bar |
| HlsPlayer.MouseLeave | components/HLSVideoPlayer.tsx:325-330 | the pointer leaving hides the bar unless the settings menu is open |
| HlsPlayer.MenuChanged | components/HLSVideoPlayer.tsx:429-436 | opening the menu shows the bar; closing it hides the bar unless the pointer is over the player |
| HlsPlayer.HideTimer | components/HLSVideoPlayer.tsx:260-265 | the 2 s timer, pending only while neither pointer nor menu holds the bar, hides it |
| HlsPlayer.OverlayStepConsistent | components/HLSVideoPlayer.tsx:260-330 | every handler keeps the bar shown exactly while the pointer is over the player or the menu is open; the hide timer then changes nothing |
| HlsPlayer.OverlayRunConsistent | components/HLSVideoPlayer.tsx:260-436 | every run of pointer, menu and timer events keeps that agreement |
| HlsPlayer.ConnectionAlertShown | components/HLSVideoPlayer.tsx:528-550 | the alert needs an explicit `false` and sits inside the control bar (line 338), so it never shows while the bar is hidden |
| HlsPlayer.AlertFollowsPointer | components/HLSVideoPlayer.tsx:338-500 | from the first render a lost connection is reported exactly while the pointer is over the player or the menu is open; without the prop never |
| HlsPlayer.AtThresholdIsLive | components/HLSVideoPlayer.tsx:297-299 | a gap of exactly 20 s still counts as live |
| HlsPlayer.GoLiveThenSampleIsLive | components/HLSVideoPlayer.tsx:309-316 | after "Go Live" the next sample finds the viewer at the edge |
| HlsPlayer.HeightLabelRoundTrip | components/HLSVideoPlayer.tsx:219 | the label `${h}p` is read back as height h |
| HlsPlayer.HeightLabelNotAuto | components/HLSVideoPlayer.tsx:212 | a height label is never "auto" |
| HlsPlayer.ChangeQualityToLevel | components/HLSVideoPlayer.tsx:216-223 | a label naming a present height selects that height's first level and shows the label |
| HlsPlayer.ChangeQualityToHeight | components/HLSVideoPlayer.tsx:216-223 | choosing `${h}p` for a present height selects the first level of height h |
| HlsPlayer.SelectThenSwitchRoundTrip | components/HLSVideoPlayer.tsx:208-243 | choosing a height label and then the engine's switch event for the chosen level shows the chosen quality again |
| HlsPlayer.SwitchThenSelectRoundTrip | components/HLSVideoPlayer.tsx:208-243 | choosing the label a switch event showed selects the first level of that height, the same quality when no earlier level shares it |
| HlsPlayer.MissingHeightIsIgnored | components/HLSVideoPlayer.tsx:220-223 | a label for a height no level has leaves the player unchanged |
| DashStream.Initial | components/DashPlayer.tsx:21-23 | no error, no retries, not started |
| DashStream.OnError | components/DashPlayer.tsx:105-111 | an engine error raises the flag, which swaps the video for the placeholder |
| DashStream.RetryAsWritten | components/DashPlayer.tsx:115-123 | the retry step tests the count captured with its player and increments the current count |
| DashStream.RetryAsWrittenPassesCeiling | components/DashPlayer.tsx:109-129 | two errors of a player created at 499 take the count to 501 |
| DashStream.RetryStep | components/DashPlayer.tsx:115-123 | a retry step adds one attempt exactly while below 500 and never lowers the count |
| DashStream.OnManifestLoaded | components/DashPlayer.tsx:136-139 | the stream counts as started; without an error the video becomes visible |
| DashStream.OnPlaybackPlaying | components/DashPlayer.tsx:145-150 | playback clears the error flag and leaves the retry count alone |
| DashStream.QualityIndex | components/DashPlayer.tsx:58-67 | "auto" issues nothing; a height selects the first rendition of exactly that height; a height no rendition has issues nothing |
| DashStream.CaptionTimeOnTimeUpdate | components/DashPlayer.tsx:194-199 | captions follow the element time only on an ended room and while not paused |
| DashStream.CaptionTimeOnSeeked | components/DashPlayer.tsx:201-209 | on an ended room captions follow every seek |
| DashStream.RetryCountMonotoneAndBounded | components/DashPlayer.tsx:115-123 | no run of events lowers the retry count or takes it past 500 |
| DashStream.HiddenUntilManifestLoaded | components/DashPlayer.tsx:236 | the video stays invisible until a MANIFEST_LOADED event |
| Rating.Init | components/Rating.tsx:29-41 | the widget starts at the initial rating and counts as rated exactly when that rating is positive |
| Rating.Click | components/Rating.tsx:43-46 | a click sets the rating unless the widget is disabled or already rated |
| Rating.Hover | components/Rating.tsx:48-51 | hovering marks the star unless the widget is disabled or already rated |
| Rating.Leave | components/Rating.tsx:99 | leaving the row clears the hover and nothing else |
| Rating.PressSubmit | components/Rating.tsx:53-58 | a submission starts exactly when the button is shown and enabled and the handler's guard passes; it hands over the current rating |
| Rating.Settle | components/Rating.tsx:56-80 | success marks the widget rated, thanks the user and arms the hide timer; failure only ends the submission |
| Rating.HideTimer | components/Rating.tsx:63-65 | the armed timer hides the button |
| Rating.ButtonDisabled | components/Rating.tsx:121-123 | the button is disabled while submitting and without a rating; enabled on an unrated widget, the handler refuses it only without a callback; enabled on a rated widget, it is the thank-you button |
| Rating.ButtonLabel | components/Rating.tsx:125-129 | "Submitting..." whenever a call is outstanding, taking priority over "Thank you!", which shows exactly for a rated, thanking widget not submitting; "Submit Rating" otherwise |
| Rating.Title | components/Rating.tsx:86-88 | "Class Rating" exactly when a positive rating is chosen, "Rate this stream" otherwise |
| Rating.AverageHeader | components/Rating.tsx:89-94 | no average renders nothing; an average of 0 renders the bare text "0"; any other average renders its line with the count |
| Rating.TitleFollowsRating | components/Rating.tsx:29-46 | the first title reads "Class Rating" exactly when the widget starts rated; a star click on an unlocked widget switches to it |
| Rating.ThankYouButtonIsInert | components/Rating.tsx:53-129 | after a successful submission the "Thank you!" button is enabled yet a press changes nothing, and the timer hides it |
| Rating.RatingsWord | components/Rating.tsx:92 | singular exactly for one rating |
| Rating.FilledIsPrefix | components/Rating.tsx:106 | the filled stars are exactly the first ones up to the hovered star, or up to the rating when nothing is hovered |
| Rating.HoverThenLeave | components/Rating.tsx:99-112 | hovering fills the stars up to the hovered one; leaving shows the rating again |
| Rating.RatedLocksRating | components/Rating.tsx:43-46 | once rated, no event changes the rating or unrates the widget |
| Rating.SubmitRoundTrip | components/Rating.tsx:53-129 | a submission shows "Submitting..."; success shows "Thank you!"; failure offers the button again with the same rating |
| Rating.ShownRatingMayDifferFromSent | components/Rating.tsx:43-46 | stars still take clicks while a submission is pending, so the rated widget can show a rating other than the one sent |
| Chat.Init | components/Chat.tsx:33-34 | the chat starts with an empty composer over the messages passed in |
| Chat.Envelope | components/Chat.tsx:81-90 | every outgoing message names this room (twice) and this user |
| Chat.Submit | components/Chat.tsx:77-94 | a message goes out exactly when the socket exists and the input is not blank; it carries the untrimmed input and clears the composer; otherwise nothing changes |
| Chat.Receive | components/Chat.tsx:54-57 | a broadcast message is appended to the end of the list and nothing else changes |
| Chat.MessagesChanged | components/Chat.tsx:68-70 | a new `messages` prop replaces the list |
| Chat.EmojiClicked | components/Chat.tsx:49-51 | the emoji is appended to the input |
| Chat.ClassifyFile | components/Chat.tsx:103 | image MIME types give image messages, "application/pdf" gives PDF, anything else text; never audio |
| Chat.FileChosen | components/Chat.tsx:96-99 | a chosen file turns the upload indicator on; no file changes nothing |
| Chat.FileLoaded | components/Chat.tsx:101-117 | the loaded file goes out typed and named and the indicator clears, exactly when the socket exists |
| Chat.RecordingStarted | components/Chat.tsx:150-176 | a granted microphone starts recording |
| Chat.StopPressed | components/Chat.tsx:182-195 | stopping ends a running recording and leaves a stopped one alone |
| Chat.BlobReady | components/Chat.tsx:169-172 | the recorder's stop stores the note |
| Chat.BlobDropped | components/Chat.tsx:299-321 | sending or discarding a note drops it from the composer |
| Chat.VoiceLoaded | components/Chat.tsx:301-313 | a loaded note goes out as audio named "voice-message.webm", exactly when the socket exists |
| Chat.DocumentClicked | components/Chat.tsx:122-131 | a click outside an open picker closes it; any other click changes nothing |
| Chat.Highlighted | components/Chat.tsx:210-213 | only own messages are highlighted, and an audio message never is |
| Chat.EchoIsOwn | components/Chat.tsx:206-213 | a text this chat sent comes back from the broadcast as its own highlighted message (`OwnMessage`), and in another user's chat as neither |
| Chat.SenderTag | components/Chat.tsx:259 | the tag is "User " followed by a dash-free part of the id; an id without a dash gives "User " alone, since the missing part renders as nothing |
| Chat.SenderTagOfParts | components/Chat.tsx:259 | the tag part is the text between the first and second dash, or everything after the only dash |
| Chat.SenderTagOfGeneratedId | components/Chat.tsx:259 | a generated id `user-<suffix>` is tagged "User <suffix>" |
| Chat.SendAndMicExclusive | components/Chat.tsx:364-397 | the send and microphone buttons never show together, and without a note exactly one shows |
| Chat.SubmitSendsIffNotBlank | components/Chat.tsx:79 | with a socket, a submission goes out exactly when the input has a non-whitespace character |
| Chat.AfterSendControls | components/Chat.tsx:92 | after a send the send button is gone and the microphone is back unless a note waits |
| Chat.StepGains | components/Chat.tsx:54-57 | one event other than a new prop adds exactly its broadcast message, if any, to the list |
| Chat.RunGains | components/Chat.tsx:54-57 | the list growth of a run is the first event's gain followed by the rest's |
| Chat.ListIsAppendOnly | components/Chat.tsx:54-57 | without a new prop the list only grows at its end, by exactly the broadcasts received in order; sending adds nothing |
| LiveCamera.PressRecord | components/LiveCamera.tsx:50-80 | joins the room when a socket exists; with a stream it asks for confirmation when recording and otherwise creates a recorder, which starts recording on a live stream but refuses to start on a stopped one, leaving the ref set and the flag false; without a stream nothing else |
| LiveCamera.ConfirmStop | components/LiveCamera.tsx:86-112 | with a recorder, tracks and recorder stop, the server is told and the dialog closes; when the emit throws for want of a socket, the ref, the flag and the dialog stay; without a recorder only the dialog closes |
| LiveCamera.CancelStop | components/LiveCamera.tsx:114-116 | cancelling only closes the confirmation |
| LiveCamera.ToggleMute | components/LiveCamera.tsx:130-139 | with an audio track the track and the mute flag flip together; otherwise nothing changes |
| LiveCamera.MediaAcquired | components/LiveCamera.tsx:31-48 | a newly acquired stream's audio track is enabled exactly when not muted |
| LiveCamera.StepKeepsValid | components/LiveCamera.tsx:50-139 | every handler keeps a recording's recorder ref set, the dialog over a recording and the audio track in step with the mute flag |
| LiveCamera.RunKeepsValid | components/LiveCamera.tsx:50-139 | every run of events keeps that agreement |
| LiveCamera.ReachableValid | components/LiveCamera.tsx:20-26 | every state reachable from the first render satisfies it |
| LiveCamera.RecordCycle | components/LiveCamera.tsx:50-116 | record, ask to stop, cancel or confirm: idle, recording, confirming, and back to idle with the server told |
| LiveCamera.RecordAfterStopIsRefused | components/LiveCamera.tsx:50-112 | after a confirmed stop the next press leaves the camera idle with a recorder that never started, and a further press repeats exactly that |
| LiveCamera.PressesOnStoppedStream | components/LiveCamera.tsx:31-80 | on a stopped stream no number of presses records |
| LiveCamera.ToggleMuteTwice | components/LiveCamera.tsx:130-139 | two toggles restore the camera state |
| Jwt.Base64Url | lib/utils.ts:51-55 | the rewritten text has no '+', '/' or '=' and is no longer than its input |
| Jwt.Base64UrlPositionwise | lib/utils.ts:53-54 | without padding, the rewrite maps each character in place |
| Jwt.Base64UrlAppend | lib/utils.ts:51-55 | the rewrite distributes over concatenation |
| Jwt.Base64UrlOfPadding | lib/utils.ts:55 | padding disappears entirely |
| Jwt.UnmapBody | lib/utils.ts:53-54 | the inverse character map undoes the rewrite of a base64 body |
| Jwt.PadCount | lib/utils.ts:55 | the padding restored is the padding removed |
| Jwt.PaddingRestored | lib/utils.ts:55 | the inverse restores exactly the removed padding |
| Jwt.PaddingDropped | lib/utils.ts:55 | rewriting padded text equals rewriting its body |
| Jwt.Base64UrlRoundTrip | lib/utils.ts:51-55 | any standard base64 text is recovered from its rewrite |
| Jwt.Segment | lib/utils.ts:46-50 | a missing segment renders as "undefined" in the MAC input |
| Jwt.VerifySignature | lib/utils.ts:44-62 | a token passes exactly when the MAC computes and its rewritten text equals the third segment; an exception rejects |
| Jwt.Secret | lib/utils.ts:64 | an unset or empty variable falls back to the built-in secret |
| Jwt.VerifyToken | lib/utils.ts:66-68 | the rejection object appears exactly when the signature fails, and carries the fixed message |
| Jwt.SegmentsOfToken | lib/utils.ts:46-57 | splitting a token of dot-free segments finds the first three; further segments are ignored |
| Jwt.SignedTokenAccepted | lib/utils.ts:43-69 | a token whose signature is the rewritten MAC of its first two segments is accepted |
| Jwt.UnsignedTokenRejected | lib/utils.ts:46-57 | a token with fewer than three segments is rejected whatever the MAC |

## Left out

- The media engines (dash.js, hls.js), the media element, the socket, `FileReader`,
  `MediaRecorder`, `getUserMedia` and the HMAC are not modelled. Their callbacks arrive
  as events, and what a handler asks of them is a command list.
- Timers are events; their periods are recorded as constants and not reasoned about:
  `VideoPlayer.StallCheckMs`, `VideoPlayer.RetryIntervalMs`,
  `VideoPlayer.ManifestRefreshMs`, `DashStream.RetryDelayMs`, `Rating.HideDelayMs` and
  `HlsPlayer.HideControlsMs`. VideoPlayer's 5 s playback timeout only logs and is left
  out.
- Media times and volumes are exact reals. NaN, infinities and floating-point rounding
  are not modelled, and neither is the `0.1` step's binary rounding.
- Clock.FormatTimeRoundTrip: stated for non-negative times only. A negative position
  usually renders with a sign in both parts, but a whole negative minute renders `:00`
  (`-60` gives "-1:00", `Clock.FormatTimeNegative`). Seeks land within [0, duration]
  (`HlsPlayer.ElementSeek`); a negative position could only come from an element
  report event, which the model leaves unconstrained.
- `Number.parseInt` is modelled for the radix-less call used here: whitespace, sign,
  a `0x` prefix and a digit run. Rendition heights are naturals, so the read-back
  lemmas cover non-negative numbers only.
- VideoPlayer.KeyDown: reads the current `isPlaying`, `player`, `isLive` and `duration`.
  The source's listener captures these from an older render, as it captures `isMuted`
  (see Findings). Only the mute key's capture is modelled as written. The key is taken
  as already lower-cased, and the "f" (fullscreen) key is left out.
- Fullscreen handling, buffered-range reporting, VideoPlayer's controls auto-hide, the debug panel,
  the audio level visualiser, the upload progress bar and the `toFixed` formatting of
  the average rating are presentation only.
- `getFormattedDate`, `cn`, `generateUserId` and the `useSocket` and `useLocalStorage`
  hooks are external code. `lib/hooks/` is not part of this model.
- LiveCamera's `ondataavailable` streaming of recorded chunks over the socket is left
  out. The recorder is a flag.
- DashPlayer creates a new player every time a dependency changes. Its cleanup destroys
  `playerInstance`, which is never set (lines 160-165), so old players stay alive.
  The model keeps one stream state; the as-written retry step takes the captured count
  as a parameter to cover the old players.
- DashPlayer's quality callback (lines 58-67) belongs to a Plyr configuration whose
  constructor is commented out (line 75). It is modelled as `QualityIndex` anyway.
- VideoPlayer's reload buttons (lines 438-454) are reachable only through `error` and
  `warnings` state that nothing sets. The reload is modelled as the `UserReload` event
  calling `Retry`.
- HLSVideoPlayer's source or configuration changes are not modelled: the model has one
  engine for the player's lifetime. The source re-creates the engine when `srcUrl`
  changes (lines 91-124) but binds the level-switch listener only once, at mount, to
  the first engine (lines 228-252), so a later engine's switches would not update the
  shown quality.
- HLSVideoPlayer calls its later hooks after an early return for the "processing"
  status (lines 279-307). The model ignores that status.
- LiveCamera's `toggleMute` is defined but wired to no control. It is still modelled.
- Behaviour the model follows as written:
  - the VideoPlayer retry loop has no bound (`RetriesNeverStop`);
  - DashPlayer never resets `retryCount`;
  - `timeupdate` also writes the stall sample (`TimeUpdateThenTickNudges`);
  - the HLS connection alert shows only for an explicit `false` and only inside the
    control bar, and no caller passes the prop;
  - a confirmed stop on LiveCamera stops the stream's tracks for good, so a later press
    creates a recorder that cannot start (`RecordAfterStopIsRefused`).

## Findings

| source | as written | input that shows it | evidently intended | confidence | as-written member | corrected member |
|---|---|---|---|---|---|---|
| components/VideoPlayer.tsx:227-264 | the keydown listener is re-created only when `currentTime` or `volume` change, so its `toggleMute` reads the `isMuted` of that render | a paused, unmuted video; press "m" twice | the second press unmutes, as the mute button does | not executed | VideoPlayer.MuteKeyTwiceStaysMuted | VideoPlayer.MuteKeyTwiceRestores |
| components/DashPlayer.tsx:109-123 | the retry step compares the `retryCount` captured when its player was created; players are re-created on every count change and the old ones stay alive | a player created at count 499 reports two errors before its first retry step | the count never exceeds 500 | not executed | DashStream.RetryAsWrittenPassesCeiling | DashStream.RetryCountMonotoneAndBounded |
