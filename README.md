# Speech-to-text component: a verified model of its session logic

The speech-to-text Lightning web component records speech on a record page.
The browser's speech engine transcribes it, and the browser's media recorder
keeps the audio. The user picks one of the record's text fields and saves the
transcript into it. If audio was recorded, the save also uploads it as a
`.wav` file named after the field and the clock.

This project models the component's own logic in Dafny. Browser and host
services are replaced by the events and outcomes they deliver:

- `FieldMetadata` (field_metadata.dfy) derives the field selector's options
  from the object metadata. It keeps updateable, text-typed, non-compound
  fields, in key order, and projects each one to `{label, value}`.
- `Capture` (capture.dfy) models the transcript join over recognition
  results and the audio blob built from the recorder's chunks. It also models
  `split(',')[1]`, which takes the base64 payload out of the data URL.
- `AudioFileName` (audio_file_name.dfy) models number-to-text, `padStart(2,
  '0')`, the timestamp and the file name. A decoder proves that the name
  determines the clock reading.
- `SaveFlow` (save_flow.dfy) models the save button's disabled state, the
  save sequence and the audio upload as pure functions. Each function returns
  the notifications shown and the host calls issued.
- `SpeechToTextComponent` (speech_to_text.dfy) is the component as a class.
  It holds the session fields (`isRecording`, `recognizedText`,
  `errorMessage`, `audioBase64`, `audioChunks`, `fields`, `selectedField`,
  `selectedLanguage`), plus a log of notifications and a log of host calls.
  Every handler and every browser callback is a method. Each method states
  its whole new state and keeps the object invariant `Valid()`. `HandleSave`
  and `UploadAudio` are proved against `SaveEffects` and `UploadEffects`.
- `Scenarios` (scenarios.dfy) holds client methods. They run handler
  sequences and show what a caller can conclude from the contracts alone.

External effects are parameters:
- whether a speech engine exists (constructor argument);
- the recognition results and error codes (`OnResult`, `OnError`);
- the answer to the microphone request (`OnMicrophoneAccess`);
- the recorder's data chunks (`OnDataAvailable`);
- the data URL the file reader produces (`OnAudioEncoded`);
- the metadata answer (`WiredObjectInfo`);
- whether the record update succeeds, how the upload settles, and the clock
  at save time (`HandleSave`).

Three behaviours of the code are worth stating plainly. The model keeps
each of them:
- `handleStart` and `handleStop` do not check `isRecording`. They only test
  whether a speech engine exists (lines 83-88, 108-112).
- `handleLanguageChange` assigns whatever value it receives (line 147), so
  `HandleLanguageChange` accepts any string.
- A microphone denial (lines 103-105) leaves the previous cycle's
  `audioBase64` in place. The next save then uploads the old audio under a
  new timestamp (`Scenarios.StaleAudioAfterDenial`).

## Model

| member | source | states |
|---|---|---|
| FieldMetadata.Editable | force-app/main/default/lwc/speechToText/speechToText.js:37-39 | the filter condition: updateable, data type one of String, TextArea, LongTextArea, RichText, and not compound |
| FieldMetadata.OptionOf | force-app/main/default/lwc/speechToText/speechToText.js:41-44 | the projection: the label from the field's metadata, the value the field's name |
| FieldMetadata.DeriveFields | force-app/main/default/lwc/speechToText/speechToText.js:34-44 | there are never more options than metadata entries, and every option is the `{label, value}` of an updateable, text-typed, non-compound field |
| FieldMetadata.DeriveFieldsAppend | force-app/main/default/lwc/speechToText/speechToText.js:34-44 | key order is preserved: the options for two consecutive runs of entries are the first run's options followed by the second's |
| FieldMetadata.DeriveFieldsSingle | force-app/main/default/lwc/speechToText/speechToText.js:35-44 | one entry yields its option exactly when it passes the filter, and nothing otherwise |
| FieldMetadata.DeriveFieldsComplete | force-app/main/default/lwc/speechToText/speechToText.js:34-44 | every editable entry's option is in the list |
| FieldMetadata.DeriveFieldsMembership | force-app/main/default/lwc/speechToText/speechToText.js:34-44 | an option is in the list if and only if some editable entry has that label and name |
| Capture.Transcript | force-app/main/default/lwc/speechToText/speechToText.js:60-62 | no results give no text, and a single result gives its best alternative; the general case is TranscriptAppend and TranscriptAt |
| Capture.TranscriptAppend | force-app/main/default/lwc/speechToText/speechToText.js:60-62 | joining the best alternatives distributes over concatenation of result lists |
| Capture.TranscriptAt | force-app/main/default/lwc/speechToText/speechToText.js:60-62 | each result's best alternative sits in the transcript, in order, between the text of the results before it and the text of those after it |
| Capture.Concat | force-app/main/default/lwc/speechToText/speechToText.js:118 | no chunks make an empty blob, and the blob starts with the first chunk's bytes; appending is ConcatSnoc |
| Capture.ConcatSnoc | force-app/main/default/lwc/speechToText/speechToText.js:118 | the blob of the chunks plus one more is the old blob followed by that chunk's bytes |
| Capture.Split | force-app/main/default/lwc/speechToText/speechToText.js:133 | splitting gives at least one part, no part contains the separator, and there is exactly one part when the string has no separator |
| Capture.JoinSplit | force-app/main/default/lwc/speechToText/speechToText.js:133 | joining the parts with the separator gives back the original string |
| Capture.SplitNoSeparator | force-app/main/default/lwc/speechToText/speechToText.js:133 | a string without the separator splits into itself alone |
| Capture.SplitAfterHead | force-app/main/default/lwc/speechToText/speechToText.js:133 | a separator-free head followed by the separator is split off as the first part |
| Capture.DataUrlPayload | force-app/main/default/lwc/speechToText/speechToText.js:133 | the kept part never holds a comma, and a URL without a comma gives the empty (falsy) value |
| Capture.DataUrlPayloadOf | force-app/main/default/lwc/speechToText/speechToText.js:133 | for a header and a base64 payload without commas, the kept part of `header,payload` is exactly the payload |
| AudioFileName.DecimalString | force-app/main/default/lwc/speechToText/speechToText.js:181-186 | a number's text is non-empty, all digits, has no leading zero, and is one character long exactly for numbers below ten |
| AudioFileName.DecimalRoundTrip | force-app/main/default/lwc/speechToText/speechToText.js:181-186 | reading a number's decimal text gives the number back |
| AudioFileName.PadStart | force-app/main/default/lwc/speechToText/speechToText.js:181-186 | the padded string is at least the width long, keeps the original as its suffix, and has only fill characters before it |
| AudioFileName.Pad2 | force-app/main/default/lwc/speechToText/speechToText.js:181-186 | a padded component is all digits and at least two long, exactly two below 100, and just the number's text from 10 on |
| AudioFileName.Pad2Value | force-app/main/default/lwc/speechToText/speechToText.js:181-186 | the leading zero does not change the number the padded digits denote |
| AudioFileName.Timestamp | force-app/main/default/lwc/speechToText/speechToText.js:180-186 | for a valid clock it is fifteen characters longer than the year's text; its content is pinned down by TimestampRoundTrip |
| AudioFileName.FileName | force-app/main/default/lwc/speechToText/speechToText.js:188 | the name starts with the field and `_`, ends in `.wav`, and for a valid clock is 20 characters longer than the field and the year together |
| AudioFileName.TimestampRoundTrip | force-app/main/default/lwc/speechToText/speechToText.js:180-186 | the timestamp of a valid clock decodes back to that clock, with the month one-based in the text and zero-based in the clock |
| AudioFileName.FileNameRoundTrip | force-app/main/default/lwc/speechToText/speechToText.js:180-188 | the file name of a valid clock decodes back to the clock, so two uploads for one field get the same name only in the same second |
| SaveFlow.SaveDisabled | force-app/main/default/lwc/speechToText/speechToText.js:79-81 | the `isSaveDisabled` getter: disabled when the text, the field or the record id is empty; SaveEffects proves it equal to the save guard of line 151 |
| SaveFlow.UploadEffects | force-app/main/default/lwc/speechToText/speechToText.js:174-207 | with no record or no data: one "Audio file is missing." notice and no call; otherwise exactly one upload under `FileName(field, clock)` and one notice, which is a success exactly when the token is `'Success'` (the combined text-and-audio notice when called from a save) |
| SaveFlow.SaveEffects | force-app/main/default/lwc/speechToText/speechToText.js:150-172 | exactly one notice per save; no call exactly when the button is disabled (`isSaveDisabled`, lines 79-81), and then the warning; otherwise the update of the selected field with the text comes first; a failed update gives one error and no upload; a successful one uploads exactly when there is audio; the single success notice is the text notice without audio and the combined notice with audio; a failed or rejected upload gives the audio error |
| SpeechToTextComponent.RecognitionErrorToast | force-app/main/default/lwc/speechToText/speechToText.js:67 | the error notice for an engine error code: title "Error", message "Speech Recognition Error: " followed by the code |
| SpeechToTextComponent.SpeechToText.constructor | force-app/main/default/lwc/speechToText/speechToText.js:51-73 | the session starts idle and empty with language `en-US`; without a speech engine the error message is set and one error notice is shown |
| SpeechToTextComponent.SpeechToText.ShowToast | force-app/main/default/lwc/speechToText/speechToText.js:209-217 | appends exactly one notification and changes nothing else |
| SpeechToTextComponent.SpeechToText.WiredObjectInfo | force-app/main/default/lwc/speechToText/speechToText.js:31-49 | metadata replaces the field list with `DeriveFields` of its entries; an error empties it and shows one error notice; no answer changes nothing |
| SpeechToTextComponent.SpeechToText.OnResult | force-app/main/default/lwc/speechToText/speechToText.js:59-63 | the text becomes the joined best alternatives, so the previous text is overwritten and not appended to; nothing else changes |
| SpeechToTextComponent.SpeechToText.OnError | force-app/main/default/lwc/speechToText/speechToText.js:65-68 | the error message becomes `"Error: " + code`, one error notice is shown, and the text is kept |
| SpeechToTextComponent.SpeechToText.HandleStart | force-app/main/default/lwc/speechToText/speechToText.js:83-91 | with a speech engine, recording is on and the engine takes the selected language; without one, nothing changes |
| SpeechToTextComponent.SpeechToText.OnMicrophoneAccess | force-app/main/default/lwc/speechToText/speechToText.js:91-105 | a granted stream sets up a recorder with an empty chunk buffer; a denial shows one error notice and changes nothing else |
| SpeechToTextComponent.SpeechToText.OnDataAvailable | force-app/main/default/lwc/speechToText/speechToText.js:97-101 | only non-empty chunks are buffered, yet the recorded audio always grows by exactly the chunk's bytes |
| SpeechToTextComponent.SpeechToText.HandleStop | force-app/main/default/lwc/speechToText/speechToText.js:108-112 | with a speech engine, recording is off; without one, nothing changes |
| SpeechToTextComponent.SpeechToText.OnAudioEncoded | force-app/main/default/lwc/speechToText/speechToText.js:129-135 | the kept audio becomes the data URL's base64 part, and nothing else changes |
| SpeechToTextComponent.SpeechToText.HandleClear | force-app/main/default/lwc/speechToText/speechToText.js:137-140 | the text and error message become empty; audio, selections, recording state and logs are unchanged |
| SpeechToTextComponent.SpeechToText.HandleFieldChange | force-app/main/default/lwc/speechToText/speechToText.js:142-144 | only the selected field changes |
| SpeechToTextComponent.SpeechToText.HandleLanguageChange | force-app/main/default/lwc/speechToText/speechToText.js:146-148 | only the selected language changes; the engine's language waits for the next start |
| SpeechToTextComponent.SpeechToText.HandleSave | force-app/main/default/lwc/speechToText/speechToText.js:150-172 | the session is unchanged; the notices and calls appended are those of `SaveEffects`, and no call is made exactly when `SaveDisabled` held of the session's values before the save |
| SpeechToTextComponent.SpeechToText.UploadAudio | force-app/main/default/lwc/speechToText/speechToText.js:174-207 | the session is unchanged; the notice and call appended are those of `UploadEffects` for the record, the selected field, the data and the clock |

## Left out

- The browser speech engine, `getUserMedia`, `MediaRecorder`, `Blob` and `FileReader` are foreign browser APIs. Their events become method calls that carry a result list, an error code, a grant or denial, a data chunk, or the finished data URL. The engine's own `start()`/`stop()` and its `continuous`/`interimResults` settings are not modelled; only `isRecording` and the engine's language are.
- The base64 encoding and the WAV container are done by the browser. `OnAudioEncoded` takes the data URL as given, and the model relates its payload to the data URL only, not to the recorded bytes.
- The `updateRecord` and `saveAudioFile` calls are network I/O. Their outcomes are parameters: whether the update succeeds, and whether the upload resolves with a token or is rejected. The upload's log entry and notice are recorded at once, without waiting.
- The asynchronous order of callbacks is event-loop scheduling. This covers the promise callbacks, `onstop`, and `onloadend`. It also covers the race where `onstop` is assigned after `stop()` is called (lines 115-120). Between handler calls, a caller can deliver the callbacks in any order. A callback cannot arrive in the middle of a save (see `HandleSave` below).
- Stopping the microphone tracks (lines 122-125) is hardware resource release.
- The clock is not read (`new Date()`). The year, zero-based month, day, hours, minutes and seconds are passed in as a `Clock`.
- AudioFileName.Clock: the year is a natural number, so the negative years the date API can report for dates before year 1 are not modelled.
- An unset `recordId` and a missing data-URL segment (`undefined` in the source) are both modelled as the empty string. Both are falsy wherever the source tests them.
- `recordId` is fixed at construction. The host could reassign it, but nothing in the component does.
- The update's field map `{Id: recordId, [selectedField]: text}` is modelled as `UpdateRecord(recordId, field, text)`. The corner case where the selected field is named `Id` is not modelled; such a field is never updateable, so it is never offered.
- The `@api`/`@wire`/`@track` decorators are framework plumbing. So are `console.error`, the `languageOptions` display list and the `isNotRecording` display getter. None of them is modelled.
- Capture.Transcript and SpeechToTextComponent.SpeechToText.OnResult: these require at least one alternative per result. The browser always supplies one; without it the source would fail on `result[0]`.
- SpeechToTextComponent.SpeechToText.HandleSave: the save runs as one step and reads `audioBase64`, `recordId` and `selectedField` when it starts. The source reads `this.audioBase64` (lines 164-165) only after `await updateRecord` (line 162) settles. Inside `uploadAudio` it also reads `this.recordId` and `this.selectedField` at that later point (lines 175, 188, 190). If `onloadend` fires or the user changes the field during the wait, the source uploads other data or uses another file name. The model cannot place such an event inside a save.
