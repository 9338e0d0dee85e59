/** The speech-to-text component: one session of recording, transcription
    and saving, held in the fields of one object. Each handler and each
    browser callback is a method that updates those fields; notifications
    shown and host calls issued are appended to two logs. */
module SpeechToTextComponent {
  import opened FieldMetadata
  import opened Capture
  import opened AudioFileName
  import opened SaveFlow

  const DefaultLanguage: string := "en-US"
  const NotSupported: string := "Speech recognition is not supported in this browser."
  const NotSupportedToast := Toast("Error", NotSupported, Error)
  const FieldsFetchFailed := Toast("Error", "Failed to fetch fields.", Error)
  const MicrophoneDenied := Toast("Error", "Microphone access denied.", Error)

  /** The notice for an error code reported by the speech engine. */
  function RecognitionErrorToast(code: string): Toast
  {
    Toast("Error", "Speech Recognition Error: " + code, Error)
  }

  /** The object metadata as delivered to the component: the field map, an
      error, or (before the first answer) neither. */
  datatype MetadataResponse = Data(entries: seq<FieldEntry>) | Failed | Pending

  /** The session fields, gathered so that a contract can say in one clause
      what a handler changes and that nothing else changes. */
  datatype SessionState = SessionState(
    isRecording: bool,
    recognizedText: string,
    errorMessage: string,
    audioBase64: string,
    hasRecorder: bool,
    audioChunks: seq<Chunk>,
    fields: seq<FieldOption>,
    selectedField: string,
    selectedLanguage: string,
    engineLanguage: string)

  class SpeechToText {
    /** The record the transcript is saved to; empty when there is none. */
    const recordId: string
    /** Whether the browser offers a speech engine. */
    const hasEngine: bool

    var isRecording: bool
    var recognizedText: string
    var errorMessage: string
    var audioBase64: string
    /** Whether a media recorder was created (microphone access granted). */
    var hasRecorder: bool
    /** The non-empty data chunks the recorder delivered since it started. */
    var audioChunks: seq<Chunk>
    var fields: seq<FieldOption>
    var selectedField: string
    var selectedLanguage: string
    /** The language the speech engine is set to listen in. */
    var engineLanguage: string

    /** Notifications shown, oldest first. */
    var toasts: seq<Toast>
    /** Host calls issued, oldest first. */
    var calls: seq<Call>

    ghost function State(): SessionState
      reads this
    {
      SessionState(isRecording, recognizedText, errorMessage, audioBase64, hasRecorder,
                   audioChunks, fields, selectedField, selectedLanguage, engineLanguage)
    }

    /** Recording is only ever on with a speech engine; the chunk buffer
        holds no empty chunk and is empty until a recorder exists. */
    ghost predicate Valid()
      reads this
    {
      (isRecording ==> hasEngine) &&
      (forall i :: 0 <= i < |audioChunks| ==> |audioChunks[i]| > 0) &&
      (!hasRecorder ==> audioChunks == [])
    }

    /** The audio blob the recorder's chunks make up. */
    function RecordedAudio(): seq<bv8>
      reads this
    {
      Concat(audioChunks)
    }

    /** The values a save reads. */
    function Context(): SaveContext
      reads this
    {
      SaveContext(recordId, selectedField, recognizedText, audioBase64)
    }

    /** Creation and connection: the session starts idle and empty, in the
        default language; without a speech engine the error message says so
        and one error notice is shown. */
    constructor (recordId: string, hasEngine: bool)
      ensures this.recordId == recordId && this.hasEngine == hasEngine
      ensures Valid()
      ensures State() == SessionState(false, [], if hasEngine then [] else NotSupported, [], false,
                                      [], [], [], DefaultLanguage,
                                      if hasEngine then DefaultLanguage else [])
      ensures toasts == (if hasEngine then [] else [NotSupportedToast]) && calls == []
    {
      this.recordId := recordId;
      this.hasEngine := hasEngine;
      isRecording := false;
      recognizedText := [];
      errorMessage := [];
      audioBase64 := [];
      hasRecorder := false;
      audioChunks := [];
      fields := [];
      selectedField := [];
      selectedLanguage := DefaultLanguage;
      engineLanguage := [];
      toasts := [];
      calls := [];
      new;
      if hasEngine {
        engineLanguage := selectedLanguage;
      } else {
        errorMessage := NotSupported;
        ShowToast(NotSupportedToast);
      }
    }

    method ShowToast(t: Toast)
      modifies this
      ensures State() == old(State()) && calls == old(calls)
      ensures toasts == old(toasts) + [t]
    {
      toasts := toasts + [t];
    }

    /** New metadata replaces the field list with the editable fields; a
        metadata error empties it and shows one error notice. */
    method WiredObjectInfo(response: MetadataResponse)
      requires Valid()
      modifies this
      ensures Valid() && calls == old(calls)
      ensures response.Data? ==>
                State() == old(State()).(fields := DeriveFields(response.entries)) && toasts == old(toasts)
      ensures response.Failed? ==>
                State() == old(State()).(fields := []) && toasts == old(toasts) + [FieldsFetchFailed]
      ensures response.Pending? ==> State() == old(State()) && toasts == old(toasts)
    {
      match response
      case Data(entries) =>
        fields := DeriveFields(entries);
      case Failed =>
        fields := [];
        ShowToast(FieldsFetchFailed);
      case Pending =>
    }

    /** A recognition result replaces the text with the joined best
        alternatives; the previous text is not kept. */
    method OnResult(results: seq<SpeechResult>)
      requires Valid() && hasEngine && WellFormed(results)
      modifies this
      ensures Valid() && toasts == old(toasts) && calls == old(calls)
      ensures State() == old(State()).(recognizedText := Transcript(results))
    {
      recognizedText := Transcript(results);
    }

    /** A recognition error is recorded and reported once; the text stays. */
    method OnError(code: string)
      requires Valid() && hasEngine
      modifies this
      ensures Valid() && calls == old(calls)
      ensures State() == old(State()).(errorMessage := "Error: " + code)
      ensures toasts == old(toasts) + [RecognitionErrorToast(code)]
    {
      errorMessage := "Error: " + code;
      ShowToast(RecognitionErrorToast(code));
    }

    /** Start: with a speech engine, recording is on and the engine listens
        in the selected language; without one nothing changes. Microphone
        access is asked for and answered later (OnMicrophoneAccess). */
    method HandleStart()
      requires Valid()
      modifies this
      ensures Valid() && toasts == old(toasts) && calls == old(calls)
      ensures hasEngine ==>
                State() == old(State()).(isRecording := true, engineLanguage := old(selectedLanguage))
      ensures !hasEngine ==> State() == old(State())
    {
      if hasEngine {
        isRecording := true;
        engineLanguage := selectedLanguage;
      }
    }

    /** The answer to the microphone request: a granted stream gets a new
        recorder with an empty chunk buffer; a denial is reported. */
    method OnMicrophoneAccess(granted: bool)
      requires Valid()
      modifies this
      ensures Valid() && calls == old(calls)
      ensures granted ==>
                State() == old(State()).(hasRecorder := true, audioChunks := []) && toasts == old(toasts)
      ensures !granted ==> State() == old(State()) && toasts == old(toasts) + [MicrophoneDenied]
    {
      if granted {
        hasRecorder := true;
        audioChunks := [];
      } else {
        ShowToast(MicrophoneDenied);
      }
    }

    /** A data chunk from the recorder: kept only when non-empty, yet the
        recorded audio always grows by exactly the chunk's bytes. */
    method OnDataAvailable(chunk: Chunk)
      requires Valid() && hasRecorder
      modifies this
      ensures Valid() && toasts == old(toasts) && calls == old(calls)
      ensures State() == old(State()).(audioChunks := old(audioChunks) + if |chunk| > 0 then [chunk] else [])
      ensures RecordedAudio() == old(RecordedAudio()) + chunk
    {
      if |chunk| > 0 {
        ConcatSnoc(audioChunks, chunk);
        audioChunks := audioChunks + [chunk];
      } else {
        assert old(RecordedAudio()) + chunk == old(RecordedAudio());
      }
    }

    /** Stop: with a speech engine recording is off; without one nothing
        changes. The recorder finishes on its own (OnAudioEncoded). */
    method HandleStop()
      requires Valid()
      modifies this
      ensures Valid() && toasts == old(toasts) && calls == old(calls)
      ensures hasEngine ==> State() == old(State()).(isRecording := false)
      ensures !hasEngine ==> State() == old(State())
    {
      if hasEngine {
        isRecording := false;
      }
    }

    /** The stopped recording, read back as a data URL: its base64 payload
        is kept for the next save. */
    method OnAudioEncoded(dataUrl: string)
      requires Valid() && hasRecorder
      modifies this
      ensures Valid() && toasts == old(toasts) && calls == old(calls)
      ensures State() == old(State()).(audioBase64 := DataUrlPayload(dataUrl))
    {
      audioBase64 := DataUrlPayload(dataUrl);
    }

    /** Clear empties the text and the error message, and nothing else. */
    method HandleClear()
      requires Valid()
      modifies this
      ensures Valid() && toasts == old(toasts) && calls == old(calls)
      ensures State() == old(State()).(recognizedText := [], errorMessage := [])
    {
      recognizedText := [];
      errorMessage := [];
    }

    method HandleFieldChange(value: string)
      requires Valid()
      modifies this
      ensures Valid() && toasts == old(toasts) && calls == old(calls)
      ensures State() == old(State()).(selectedField := value)
    {
      selectedField := value;
    }

    /** A new language is only taken up by the engine at the next start. */
    method HandleLanguageChange(value: string)
      requires Valid()
      modifies this
      ensures Valid() && toasts == old(toasts) && calls == old(calls)
      ensures State() == old(State()).(selectedLanguage := value)
    {
      selectedLanguage := value;
    }

    /** Save, given how the update and the upload settle and the clock at
        that moment: the session is unchanged, and what is shown and called
        is what SaveEffects says. In particular nothing is called exactly
        when the save button is disabled (`SaveDisabled` of the session's values). */
    method HandleSave(updateOk: bool, upload: UploadResult, clock: Clock)
      requires Valid()
      modifies this
      ensures Valid() && State() == old(State())
      ensures toasts == old(toasts) + SaveEffects(old(Context()), updateOk, upload, clock).toasts
      ensures calls == old(calls) + SaveEffects(old(Context()), updateOk, upload, clock).calls
      ensures calls == old(calls) <==> SaveDisabled(old(Context()))
    {
      if recordId == [] || selectedField == [] || recognizedText == [] {
        ShowToast(SaveWarning);
        return;
      }
      calls := calls + [UpdateRecord(recordId, selectedField, recognizedText)];
      if updateOk {
        if audioBase64 != [] {
          UploadAudio(audioBase64, true, upload, clock);
        } else {
          ShowToast(TextSaved);
        }
      } else {
        ShowToast(TextSaveFailed);
      }
    }

    /** Upload of audio data for the selected field, given how the upload
        settles and the clock: what is shown and called is what
        UploadEffects says, and the session is unchanged. */
    method UploadAudio(base64Data: string, combined: bool, upload: UploadResult, clock: Clock)
      requires Valid()
      modifies this
      ensures Valid() && State() == old(State())
      ensures toasts == old(toasts) + UploadEffects(recordId, selectedField, base64Data, combined, upload, clock).toasts
      ensures calls == old(calls) + UploadEffects(recordId, selectedField, base64Data, combined, upload, clock).calls
    {
      if recordId == [] || base64Data == [] {
        ShowToast(AudioMissing);
        return;
      }
      var fileName := FileName(selectedField, clock);
      calls := calls + [SaveAudioFile(recordId, fileName, base64Data)];
      match upload
      case Resolved(token) =>
        if token == UploadOk {
          if combined {
            ShowToast(TextAndAudioSaved);
          } else {
            ShowToast(AudioSaved);
          }
        } else {
          ShowToast(AudioSaveFailed);
        }
      case Rejected =>
        ShowToast(AudioSaveFailed);
    }
  }
}
