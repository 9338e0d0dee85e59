/** Client code: sequences of handler calls, and what the handlers'
    contracts alone let a caller conclude about the session afterwards. */
module Scenarios {
  import opened FieldMetadata
  import opened Capture
  import opened AudioFileName
  import opened SaveFlow
  import opened SpeechToTextComponent

  /** Two recording cycles: the second transcript replaces the first. */
  method TwoCyclesOverwrite()
  {
    var c := new SpeechToText("001", true);
    c.HandleStart();
    c.OnResult([[Alternative("hello")]]);
    c.HandleStop();
    assert c.recognizedText == "hello";
    c.HandleStart();
    c.HandleStop();
    assert c.recognizedText == "hello";
    c.OnResult([[Alternative("world")]]);
    assert c.recognizedText == "world" && !c.isRecording;
  }

  /** The engine listens in the default language unless another one was
      chosen before the start; a change during recording waits for the
      next start. */
  method LanguageTakenAtStart()
  {
    var c := new SpeechToText("001", true);
    c.HandleStart();
    assert c.engineLanguage == "en-US";
    c.HandleLanguageChange("fr-FR");
    assert c.engineLanguage == "en-US";
    c.HandleStop();
    c.HandleStart();
    assert c.engineLanguage == "fr-FR";
  }

  /** Without a speech engine, starting never turns recording on. */
  method NoEngine()
  {
    var c := new SpeechToText("001", false);
    assert c.toasts == [NotSupportedToast];
    c.HandleStart();
    assert !c.isRecording;
  }

  /** Recorded audio but no text: the save only warns. */
  method SaveWithoutText(clock: Clock)
  {
    var c := new SpeechToText("001", true);
    c.HandleFieldChange("Description");
    c.OnMicrophoneAccess(true);
    c.OnDataAvailable([1, 2, 3]);
    c.OnAudioEncoded("data:audio/wav;base64,UklGRg==");
    c.HandleSave(true, Resolved("Success"), clock);
    assert c.calls == [];
    assert c.toasts == [SaveWarning];
  }

  /** Text and audio, both calls succeeding: one combined notice. */
  method SaveTextAndAudio(clock: Clock)
  {
    var results := [[Alternative("hello "), Alternative("yellow ")], [Alternative("world")]];
    assert Transcript(results[1..]) == "world";
    assert Transcript(results) == "hello world";
    var header, payload := "data:audio/wav;base64", "UklGRg==";
    DataUrlPayloadOf(header, payload);
    var c := new SpeechToText("001", true);
    c.HandleFieldChange("Description");
    c.OnResult(results);
    c.OnMicrophoneAccess(true);
    c.OnAudioEncoded(header + "," + payload);
    assert c.audioBase64 == payload;
    c.HandleSave(true, Resolved("Success"), clock);
    assert c.toasts == [TextAndAudioSaved];
    assert c.calls[0] == UpdateRecord("001", "Description", "hello world");
    assert |c.calls| == 2;
  }

  /** A denied microphone in a later cycle leaves the earlier recording in
      place, and the next save uploads it again under a new name. */
  method StaleAudioAfterDenial(clock: Clock)
  {
    var header, payload := "data:audio/wav;base64", "UklGRg==";
    DataUrlPayloadOf(header, payload);
    var c := new SpeechToText("001", true);
    c.HandleFieldChange("Description");
    c.HandleStart();
    c.OnMicrophoneAccess(true);
    c.HandleStop();
    c.OnAudioEncoded(header + "," + payload);
    c.HandleStart();
    c.OnMicrophoneAccess(false);
    c.OnResult([[Alternative("second take")]]);
    c.HandleStop();
    assert c.audioBase64 == payload;
    c.HandleSave(true, Resolved("Success"), clock);
    assert c.calls[1] == SaveAudioFile("001", FileName("Description", clock), payload);
  }

  /** A compound address field is not offered; a plain text field is. */
  method AddressExcluded()
  {
    var c := new SpeechToText("001", true);
    var name := FieldEntry("Name", FieldInfo("Account Name", "String", true, false));
    var address := FieldEntry("BillingAddress", FieldInfo("Billing Address", "Address", true, true));
    c.WiredObjectInfo(Data([name, address]));
    assert [name, address][1..] == [address];
    assert c.fields == [FieldOption("Account Name", "Name")];
  }
}
