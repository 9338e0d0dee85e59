/** Saving the session's output: a guard, the record update, and, when
    audio was recorded, the upload of the audio file. The two host calls
    are abstracted as their outcomes; what the component does is recorded
    as the notifications it shows and the calls it issues. */
module SaveFlow {
  import opened AudioFileName

  datatype Variant = Success | Warning | Error

  /** A notification shown to the user. */
  datatype Toast = Toast(title: string, message: string, variant: Variant)

  /** A call to the host: the record update (record id, field, new value)
      or the upload of the audio file. */
  datatype Call =
    | UpdateRecord(recordId: string, field: string, value: string)
    | SaveAudioFile(recordId: string, fileName: string, base64Data: string)

  /** How the upload call settled: resolved with a result token, or rejected. */
  datatype UploadResult = Resolved(token: string) | Rejected

  /** What one save does, in order. */
  datatype Effects = Effects(toasts: seq<Toast>, calls: seq<Call>)

  /** The session values a save reads. An empty string stands for an unset
      (falsy) value. */
  datatype SaveContext = SaveContext(recordId: string, selectedField: string,
                                     recognizedText: string, audioBase64: string)

  const SaveWarning := Toast("Warning", "Please select a field and ensure there is text to save.", Warning)
  const TextSaved := Toast("Success", "Speech text saved successfully!", Success)
  const TextSaveFailed := Toast("Error", "Failed to save speech text.", Error)
  const AudioMissing := Toast("Error", "Audio file is missing.", Error)
  const TextAndAudioSaved := Toast("Success", "Speech text and audio file saved successfully!", Success)
  const AudioSaved := Toast("Success", "Audio file saved successfully!", Success)
  const AudioSaveFailed := Toast("Error", "Failed to save audio file.", Error)

  /** The token the upload returns when the file was stored. */
  const UploadOk := "Success"

  /** The save button's disabled state: no text, no field or no record. */
  predicate SaveDisabled(c: SaveContext)
  {
    c.recognizedText == [] || c.selectedField == [] || c.recordId == []
  }

  /** Uploading the audio: without a record or data there is one error
      notice and no call; otherwise exactly one upload of the data under
      the file name of `field` and `clock`, and one notice that is a
      success exactly when the result token is "Success" (the combined
      text-and-audio notice when the upload is part of a save). */
  function UploadEffects(recordId: string, field: string, base64Data: string, combined: bool,
                         result: UploadResult, clock: Clock): (e: Effects)
    ensures |e.toasts| == 1 && |e.calls| <= 1
    ensures e.calls == [] <==> recordId == [] || base64Data == []
    ensures e.calls == [] ==> e.toasts == [AudioMissing]
    ensures e.calls != [] ==> e.calls[0] == SaveAudioFile(recordId, FileName(field, clock), base64Data)
    ensures e.toasts[0].variant == Success <==> e.calls != [] && result == Resolved(UploadOk)
    ensures e.toasts[0] == TextAndAudioSaved <==> combined && e.calls != [] && result == Resolved(UploadOk)
    ensures e.toasts[0] == AudioSaved <==> !combined && e.calls != [] && result == Resolved(UploadOk)
    ensures e.calls != [] && result != Resolved(UploadOk) ==> e.toasts == [AudioSaveFailed]
  {
    if recordId == [] || base64Data == [] then
      Effects([AudioMissing], [])
    else
      var call := SaveAudioFile(recordId, FileName(field, clock), base64Data);
      match result
      case Resolved(token) =>
        if token == UploadOk then
          Effects([if combined then TextAndAudioSaved else AudioSaved], [call])
        else
          Effects([AudioSaveFailed], [call])
      case Rejected =>
        Effects([AudioSaveFailed], [call])
  }

  /** A save. Exactly one notice, whatever happens. No call at all exactly
      when the save button would be disabled, and then the notice is the
      warning. Otherwise the first call is the update of the selected field
      with the text; a failed update is reported and nothing is uploaded;
      a successful one is followed by an upload exactly when there is
      audio, and the notice is a success exactly when no step failed. */
  function SaveEffects(c: SaveContext, updateOk: bool, upload: UploadResult, clock: Clock): (e: Effects)
    ensures |e.toasts| == 1 && |e.calls| <= 2
    ensures e.calls == [] <==> SaveDisabled(c)
    ensures SaveDisabled(c) ==> e.toasts == [SaveWarning]
    ensures !SaveDisabled(c) ==> e.calls[0] == UpdateRecord(c.recordId, c.selectedField, c.recognizedText)
    ensures !SaveDisabled(c) && !updateOk ==> e.toasts == [TextSaveFailed] && |e.calls| == 1
    ensures |e.calls| == 2 <==> !SaveDisabled(c) && updateOk && c.audioBase64 != []
    ensures |e.calls| == 2 ==> e.calls[1] == SaveAudioFile(c.recordId, FileName(c.selectedField, clock), c.audioBase64)
    ensures e.toasts[0] != AudioMissing
    ensures e.toasts[0].variant == Success <==>
            !SaveDisabled(c) && updateOk && (c.audioBase64 == [] || upload == Resolved(UploadOk))
    ensures e.toasts == [TextSaved] <==> !SaveDisabled(c) && updateOk && c.audioBase64 == []
    ensures e.toasts == [TextAndAudioSaved] <==>
            !SaveDisabled(c) && updateOk && c.audioBase64 != [] && upload == Resolved(UploadOk)
    ensures e.toasts == [AudioSaveFailed] <==>
            !SaveDisabled(c) && updateOk && c.audioBase64 != [] && upload != Resolved(UploadOk)
  {
    if c.recordId == [] || c.selectedField == [] || c.recognizedText == [] then
      Effects([SaveWarning], [])
    else
      var update := UpdateRecord(c.recordId, c.selectedField, c.recognizedText);
      if !updateOk then
        Effects([TextSaveFailed], [update])
      else if c.audioBase64 != [] then
        var u := UploadEffects(c.recordId, c.selectedField, c.audioBase64, true, upload, clock);
        Effects(u.toasts, [update] + u.calls)
      else
        Effects([TextSaved], [update])
  }
}
