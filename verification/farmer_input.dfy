/**
 * The farmer input page: a photo selection, a voice-recording toggle that
 * stops itself after a delay, and a simulated verification request.
 *
 * The page's four state fields are the fields of `SubmissionFlow`; each user
 * event and each timer callback is a method. The two timers are modelled by
 * counting the callbacks that have been scheduled and have not fired yet: a
 * callback method may run whenever one of its kind is pending, in any order
 * relative to the user's events. The delays themselves are not modelled.
 */
module FarmerInput {
  import opened Wrappers

  datatype FileRef = FileRef(name: string)

  datatype VerificationResult = VerificationResult(crop: string, status: string, proofId: string)

  /** The notifications the page raises. */
  datatype Notice =
    | PhotoUploaded(fileName: string)
    | RecordingStarted
    | RecordingCompleted
    | VerificationCompleted(crop: string)

  /** What a click on the submit button leads to. */
  datatype SubmitOutcome =
    | ButtonDisabled   // a verification is in progress: the button does not react
    | NoDataToSubmit   // the guard refuses: warning notification, no state change
    | Accepted         // loading starts and the completion callback is scheduled

  const SimulatedCrop: string := "Wheat"
  const SimulatedStatus: string := "Verified"

  predicate IsBase36Digit(c: char)
  {
    '0' <= c <= '9' || 'a' <= c <= 'z'
  }

  predicate IsUpperAlnum(c: char)
  {
    '0' <= c <= '9' || 'A' <= c <= 'Z'
  }

  /**
   * The texts `Math.random().toString(36)` can produce: "0", or "0." followed
   * by lower-case base-36 digits.
   */
  predicate IsRandomText(s: string)
  {
    s == "0" || (|s| >= 2 && s[0] == '0' && s[1] == '.' && forall i :: 2 <= i < |s| ==> IsBase36Digit(s[i]))
  }

  /** A proof identifier as the page can produce it: up to six characters from 0-9 and A-Z. */
  predicate IsProofId(id: string)
  {
    |id| <= 6 && forall i :: 0 <= i < |id| ==> IsUpperAlnum(id[i])
  }

  function Min(a: int, b: int): int
  {
    if a <= b then a else b
  }

  /** JavaScript's `String.prototype.substring`: both bounds clamped to the string, then ordered. */
  function Substring(s: string, start: int, end: int): (r: string)
    ensures |r| <= |s|
    ensures 0 <= start <= end ==> |r| == Min(end, |s|) - Min(start, |s|)
    ensures 0 <= start <= end ==> forall i :: 0 <= i < |r| ==> r[i] == s[start + i]
  {
    var a := if start < 0 then 0 else Min(start, |s|);
    var b := if end < 0 then 0 else Min(end, |s|);
    if a <= b then s[a..b] else s[b..a]
  }

  function UpperChar(c: char): char
  {
    if 'a' <= c <= 'z' then (c as int - 'a' as int + 'A' as int) as char else c
  }

  function LowerChar(c: char): char
  {
    if 'A' <= c <= 'Z' then (c as int - 'A' as int + 'a' as int) as char else c
  }

  /** `toUpperCase`, for the ASCII letters that can occur here. */
  function UpperCase(s: string): (r: string)
    ensures |r| == |s|
    ensures forall i :: 0 <= i < |s| ==> r[i] == UpperChar(s[i])
  {
    if |s| == 0 then "" else [UpperChar(s[0])] + UpperCase(s[1..])
  }

  function LowerCase(s: string): (r: string)
    ensures |r| == |s|
    ensures forall i :: 0 <= i < |s| ==> r[i] == LowerChar(s[i])
  {
    if |s| == 0 then "" else [LowerChar(s[0])] + LowerCase(s[1..])
  }

  /** `random.substring(2, 8).toUpperCase()`: the digits after "0.", at most six, upper-cased. */
  function ProofIdOf(random: string): (id: string)
    requires IsRandomText(random)
    ensures IsProofId(id)
    ensures random == "0" ==> id == ""
    ensures |random| >= 2 ==> |id| == Min(|random| - 2, 6)
  {
    UpperCase(Substring(random, 2, 8))
  }

  /** Upper-casing undoes lower-casing on identifier characters. */
  lemma UpperCaseOfLowerCase(id: string)
    requires IsProofId(id)
    ensures UpperCase(LowerCase(id)) == id
  {
    var r := UpperCase(LowerCase(id));
    forall i | 0 <= i < |id|
      ensures r[i] == id[i]
    {
      assert IsUpperAlnum(id[i]);
    }
  }

  /** Every identifier of the allowed shape is produced by some random text. */
  lemma ProofIdOfReachesEveryId(id: string)
    requires IsProofId(id)
    ensures IsRandomText("0." + LowerCase(id))
    ensures ProofIdOf("0." + LowerCase(id)) == id
  {
    var digits := LowerCase(id);
    var random := "0." + digits;
    forall i | 2 <= i < |random|
      ensures IsBase36Digit(random[i])
    {
      assert random[i] == digits[i - 2] == LowerChar(id[i - 2]);
      assert IsUpperAlnum(id[i - 2]);
    }
    assert Substring(random, 2, 8) == random[2..] == digits;
    UpperCaseOfLowerCase(id);
  }

  /** The only result the simulated verification produces. */
  predicate IsSimulatedResult(r: VerificationResult)
  {
    r.crop == SimulatedCrop && r.status == SimulatedStatus && IsProofId(r.proofId)
  }

  class SubmissionFlow {
    var selectedFile: Option<FileRef>
    var isRecording: bool
    var verificationResult: Option<VerificationResult>
    var isLoading: bool
    // Scheduled timer callbacks that have not fired yet.
    var pendingAutoStops: nat
    var pendingCompletions: nat

    /**
     * Loading is exactly "a completion callback is pending" (there is never
     * more than one), a recording always has an auto-stop scheduled to end it,
     * and a shown result is the simulated one.
     */
    ghost predicate Valid()
      reads this
    {
      pendingCompletions <= 1 &&
      (isLoading <==> pendingCompletions == 1) &&
      (isRecording ==> pendingAutoStops > 0) &&
      (verificationResult.Some? ==> IsSimulatedResult(verificationResult.value))
    }

    /** Something to submit: a selected photo or a recording in progress. */
    predicate HasData()
      reads this
    {
      selectedFile.Some? || isRecording
    }

    constructor ()
      ensures Valid()
      ensures selectedFile == None && !isRecording && verificationResult == None && !isLoading
      ensures pendingAutoStops == 0 && pendingCompletions == 0
    {
      selectedFile := None;
      isRecording := false;
      verificationResult := None;
      isLoading := false;
      pendingAutoStops := 0;
      pendingCompletions := 0;
    }

    /** `handleFileUpload`: a change event carrying a file selects it; an empty one does nothing. */
    method FileChange(file: Option<FileRef>) returns (notice: Option<Notice>)
      requires Valid()
      modifies this
      ensures Valid()
      ensures selectedFile == if file.Some? then file else old(selectedFile)
      ensures notice == if file.Some? then Some(PhotoUploaded(file.value.name)) else None
      ensures isRecording == old(isRecording) && isLoading == old(isLoading)
      ensures verificationResult == old(verificationResult)
      ensures pendingAutoStops == old(pendingAutoStops) && pendingCompletions == old(pendingCompletions)
    {
      notice := None;
      if file.Some? {
        selectedFile := file;
        notice := Some(PhotoUploaded(file.value.name));
      }
    }

    /**
     * `handleVoiceRecording`: flips the flag; only starting a recording
     * schedules an auto-stop, and stopping one cancels nothing.
     */
    method ToggleRecording() returns (notice: Option<Notice>)
      requires Valid()
      modifies this
      ensures Valid()
      ensures isRecording == !old(isRecording)
      ensures pendingAutoStops == old(pendingAutoStops) + (if old(isRecording) then 0 else 1)
      ensures notice == if old(isRecording) then None else Some(RecordingStarted)
      ensures selectedFile == old(selectedFile) && isLoading == old(isLoading)
      ensures verificationResult == old(verificationResult)
      ensures pendingCompletions == old(pendingCompletions)
    {
      var wasRecording := isRecording;
      isRecording := !wasRecording;
      notice := None;
      if !wasRecording {
        notice := Some(RecordingStarted);
        pendingAutoStops := pendingAutoStops + 1;
      }
    }

    /** The auto-stop callback: recording ends whatever toggles happened since it was scheduled. */
    method AutoStopFires() returns (notice: Notice)
      requires Valid()
      requires pendingAutoStops > 0
      modifies this
      ensures Valid()
      ensures !isRecording
      ensures pendingAutoStops == old(pendingAutoStops) - 1
      ensures notice == RecordingCompleted
      ensures selectedFile == old(selectedFile) && isLoading == old(isLoading)
      ensures verificationResult == old(verificationResult)
      ensures pendingCompletions == old(pendingCompletions)
    {
      isRecording := false;
      pendingAutoStops := pendingAutoStops - 1;
      notice := RecordingCompleted;
    }

    /**
     * A click on the submit button, which is disabled while loading, running
     * `handleSubmit`: refused without data, otherwise loading starts.
     */
    method ClickSubmit() returns (outcome: SubmitOutcome)
      requires Valid()
      modifies this
      ensures Valid()
      ensures outcome == if old(isLoading) then ButtonDisabled
                         else if !old(HasData()) then NoDataToSubmit
                         else Accepted
      ensures isLoading == (old(isLoading) || outcome == Accepted)
      ensures pendingCompletions == old(pendingCompletions) + (if outcome == Accepted then 1 else 0)
      ensures selectedFile == old(selectedFile) && isRecording == old(isRecording)
      ensures verificationResult == old(verificationResult)
      ensures pendingAutoStops == old(pendingAutoStops)
    {
      if isLoading {
        return ButtonDisabled;
      }
      if selectedFile.None? && !isRecording {
        return NoDataToSubmit;
      }
      isLoading := true;
      pendingCompletions := pendingCompletions + 1;
      outcome := Accepted;
    }

    /**
     * The completion callback: stores the simulated result, whose identifier
     * is derived from `random`, the text of `Math.random().toString(36)`.
     */
    method CompletionFires(random: string) returns (notice: Notice)
      requires Valid()
      requires pendingCompletions > 0
      requires IsRandomText(random)
      modifies this
      ensures Valid()
      ensures verificationResult == Some(VerificationResult(SimulatedCrop, SimulatedStatus, ProofIdOf(random)))
      ensures !isLoading && pendingCompletions == old(pendingCompletions) - 1
      ensures notice == VerificationCompleted(SimulatedCrop)
      ensures selectedFile == old(selectedFile) && isRecording == old(isRecording)
      ensures pendingAutoStops == old(pendingAutoStops)
    {
      var result := VerificationResult(SimulatedCrop, SimulatedStatus, ProofIdOf(random));
      verificationResult := Some(result);
      isLoading := false;
      pendingCompletions := pendingCompletions - 1;
      notice := VerificationCompleted(result.crop);
    }
  }

  /** Selecting "leaf.jpg" and submitting yields the simulated wheat result once the callback fires. */
  method LeafPhotoScenario(random: string) returns (result: Option<VerificationResult>, loading: bool)
    requires IsRandomText(random)
    ensures result.Some? && IsSimulatedResult(result.value)
    ensures result.value.proofId == ProofIdOf(random)
    ensures !loading
  {
    var flow := new SubmissionFlow();
    var uploaded := flow.FileChange(Some(FileRef("leaf.jpg")));
    var outcome := flow.ClickSubmit();
    assert outcome == Accepted && flow.pendingCompletions == 1;
    var done := flow.CompletionFires(random);
    result, loading := flow.verificationResult, flow.isLoading;
  }

  /** Submitting on a fresh page is refused: no loading, no result. */
  method EmptySubmitScenario() returns (outcome: SubmitOutcome, loading: bool, result: Option<VerificationResult>)
    ensures outcome == NoDataToSubmit
    ensures !loading && result == None
  {
    var flow := new SubmissionFlow();
    outcome := flow.ClickSubmit();
    loading, result := flow.isLoading, flow.verificationResult;
  }

  /**
   * Start, stop and restart a recording: the first, uncancelled auto-stop
   * ends the second recording early, and the second auto-stop is still due.
   */
  method RestartedRecordingScenario() returns (recording: bool, stillPending: nat)
    ensures !recording
    ensures stillPending == 1
  {
    var flow := new SubmissionFlow();
    var n1 := flow.ToggleRecording();
    var n2 := flow.ToggleRecording();
    var n3 := flow.ToggleRecording();
    assert flow.isRecording && flow.pendingAutoStops == 2;
    var n4 := flow.AutoStopFires();
    recording, stillPending := flow.isRecording, flow.pendingAutoStops;
  }

  /** A finished result stays on the page through a new upload, toggles and a refused submit. */
  method ResultPersistsScenario(random: string) returns (result: Option<VerificationResult>)
    requires IsRandomText(random)
    ensures result == Some(VerificationResult(SimulatedCrop, SimulatedStatus, ProofIdOf(random)))
  {
    var flow := new SubmissionFlow();
    var n1 := flow.ToggleRecording();
    var o1 := flow.ClickSubmit();
    var n2 := flow.CompletionFires(random);
    var n3 := flow.AutoStopFires();
    var n4 := flow.FileChange(None);
    var o2 := flow.ClickSubmit();
    assert o2 == NoDataToSubmit;
    var n5 := flow.FileChange(Some(FileRef("next.jpg")));
    result := flow.verificationResult;
  }
}
