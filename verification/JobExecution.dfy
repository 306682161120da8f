/** One execution of a claimed job over object storage, and what any sequence of executions costs. */
module JobExecution {
  import opened Options
  import opened JobRows

  type Bytes = seq<bv8>
  type Digest = nat
  type RequestId = nat

  /** A job's keys are the same in every attempt; originals are stored apart from all of them. */
  datatype Key = OriginalOf(asset: AssetId) | OutputOf(job: JobId) | PreviewOf(job: JobId) | CutoutOf(job: JobId)

  datatype StoredObject = StoredObject(bytes: Bytes, checksum: Option<Digest>, job: Option<JobId>, requestId: Option<RequestId>)

  type Objects = map<Key, StoredObject>

  datatype Stage = SourceStage | ProviderStage | CompositionStage | StorageStage

  datatype Failure = Failure(stage: Stage, kind: FailureKind, requestId: Option<RequestId>)

  /** An exception is either classified already or comes from private storage. */
  datatype Outcome<+T> = Ok(value: T) | StageFailure(failure: Failure) | Unclassified

  datatype ClaimedJob = ClaimedJob(id: JobId, asset: AssetId, size: nat, checksum: Option<Digest>, studio: bool)

  datatype Cutout = Cutout(bytes: Bytes, requestId: Option<RequestId>)

  datatype Rendered = Rendered(bytes: Bytes, preview: Bytes)

  datatype Inspection = Inspected(photo: Bytes) | Refused(kind: FailureKind)

  datatype ProviderAnswer = Removed(cutout: Cutout) | NotRemoved(kind: FailureKind, requestId: Option<RequestId>)

  datatype Composition = Composed(image: Rendered) | NoVehicleDetected | CompositionFailed

  /** A write that throws may or may not have stored its object. */
  datatype Write = Written | Lost | WrittenUnseen

  datatype ExecutionResult =
    | ExecutionOk(checksum: Digest, outputKey: Key, previewKey: Key, size: nat, requestId: Option<RequestId>)
    | ExecutionFailed(failure: Failure)

  /** What storage, provider and image pipeline do in one attempt. */
  datatype Surroundings = Surroundings(
    sourceReadFails: bool, stagedReadFails: bool, inspect: Bytes -> Inspection, provider: ProviderAnswer,
    compose: Bytes -> Composition, renderOriginal: Bytes -> Option<Rendered>,
    stage: Write, storeOutput: Write, storePreview: Write)

  datatype Limits = Limits(maximumInputBytes: nat, maximumReadBytes: nat)

  // ----- storage and provider -----

  function Read(objects: Objects, key: Key, limits: Limits, fails: bool): Outcome<StoredObject> {
    if fails || key !in objects || |objects[key].bytes| == 0 || |objects[key].bytes| > limits.maximumReadBytes then Unclassified
    else Ok(objects[key])
  }

  function Put(objects: Objects, key: Key, item: StoredObject, write: Write): Objects {
    if write == Lost then objects else objects[key := item]
  }

  class ObjectStorage {
    var objects: Objects
    const limits: Limits

    method GetRequired(key: Key, fails: bool) returns (read: Outcome<StoredObject>)
      ensures read == Read(objects, key, limits, fails)
    {
      if fails || key !in objects { return Unclassified; }
      if |objects[key].bytes| == 0 || |objects[key].bytes| > limits.maximumReadBytes { return Unclassified; }
      return Ok(objects[key]);
    }

    /** A missing object is no error; any other failed read is. */
    method GetOptional(key: Key, fails: bool) returns (read: Outcome<Option<StoredObject>>)
      ensures read == if !fails && key !in objects then Ok(None)
                      else match Read(objects, key, limits, fails)
                           case Ok(item) => Ok(Some(item))
                           case StageFailure(f) => StageFailure(f)
                           case Unclassified => Unclassified
    {
      if !fails && key !in objects { return Ok(None); }
      var required := GetRequired(key, fails);
      if required.Ok? { return Ok(Some(required.value)); }
      return Unclassified;
    }

    method Store(key: Key, item: StoredObject, write: Write) returns (threw: bool)
      modifies this
      ensures objects == Put(old(objects), key, item, write) && threw == (write != Written)
    {
      if write != Lost { objects := objects[key := item]; }
      return write != Written;
    }
  }

  class ImageProvider {
    var calls: seq<JobId>

    method RemoveBackground(job: JobId, answer: ProviderAnswer) returns (result: ProviderAnswer)
      modifies this
      ensures result == answer && calls == old(calls) + [job]
    {
      calls := calls + [job];
      return answer;
    }
  }

  // ----- one attempt -----

  /** The digest and the read limits, the same for every attempt. */
  datatype Setup = Setup(sha: Bytes -> Digest, limits: Limits)

  const INVALID_SOURCE := Failure(SourceStage, InvalidImage, None)

  /** The photo to work on, or why the original cannot be used. */
  function SourceOutcome(s: Setup, objects: Objects, job: ClaimedJob, around: Surroundings): Outcome<Bytes> {
    var original := Read(objects, OriginalOf(job.asset), s.limits, around.sourceReadFails);
    if job.size > s.limits.maximumInputBytes then StageFailure(INVALID_SOURCE)
    else if !original.Ok? then Unclassified
    else if |original.value.bytes| != job.size then StageFailure(INVALID_SOURCE)
    else if job.checksum.Some? && s.sha(original.value.bytes) != job.checksum.value then StageFailure(INVALID_SOURCE)
    else match around.inspect(original.value.bytes)
      case Refused(kind) => StageFailure(Failure(SourceStage, kind, None))
      case Inspected(photo) => Ok(photo)
  }

  /** A staged cutout whose bytes match the checksum stored with them. */
  predicate Staged(s: Setup, objects: Objects, id: JobId) {
    CutoutOf(id) in objects && objects[CutoutOf(id)].checksum == Some(s.sha(objects[CutoutOf(id)].bytes))
  }

  /** The staged object is there but cannot be read. */
  predicate StagedUnreadable(s: Setup, objects: Objects, id: JobId, around: Surroundings) {
    around.stagedReadFails || (CutoutOf(id) in objects && !Read(objects, CutoutOf(id), s.limits, false).Ok?)
  }

  /** The attempt asks the provider for a cutout. */
  predicate Pays(s: Setup, objects: Objects, job: ClaimedJob, around: Surroundings) {
    && SourceOutcome(s, objects, job, around).Ok? && job.studio
    && !StagedUnreadable(s, objects, job.id, around) && !Staged(s, objects, job.id)
  }

  function StagedObject(s: Setup, job: ClaimedJob, cutout: Cutout): StoredObject {
    StoredObject(cutout.bytes, Some(s.sha(cutout.bytes)), Some(job.id), cutout.requestId)
  }

  /** The cutout of a studio job whose original is valid: the staged one, or the provider's once it is staged. */
  function CutoutOutcome(s: Setup, objects: Objects, job: ClaimedJob, around: Surroundings): Outcome<Cutout> {
    if StagedUnreadable(s, objects, job.id, around) then Unclassified
    else if Staged(s, objects, job.id) then Ok(Cutout(objects[CutoutOf(job.id)].bytes, objects[CutoutOf(job.id)].requestId))
    else match around.provider
      case NotRemoved(kind, requestId) => StageFailure(Failure(ProviderStage, kind, requestId))
      case Removed(cutout) => if around.stage == Written then Ok(cutout) else Unclassified
  }

  function AfterStaging(s: Setup, objects: Objects, job: ClaimedJob, around: Surroundings): Objects {
    if Pays(s, objects, job, around) && around.provider.Removed?
    then Put(objects, CutoutOf(job.id), StagedObject(s, job, around.provider.cutout), around.stage) else objects
  }

  /** The cutout that composition works from, when the attempt gets that far. */
  function ComposedFrom(s: Setup, objects: Objects, job: ClaimedJob, around: Surroundings): Option<Cutout> {
    if SourceOutcome(s, objects, job, around).Ok? && job.studio && CutoutOutcome(s, objects, job, around).Ok?
    then Some(CutoutOutcome(s, objects, job, around).value) else None
  }

  function ComposeOutcome(cutout: Cutout, around: Surroundings): Outcome<Rendered> {
    match around.compose(cutout.bytes)
    case Composed(image) => Ok(image)
    case NoVehicleDetected => StageFailure(Failure(ProviderStage, NonCarImage, cutout.requestId))
    case CompositionFailed => StageFailure(Failure(CompositionStage, Internal, cutout.requestId))
  }

  function RenderOutcome(s: Setup, objects: Objects, job: ClaimedJob, around: Surroundings): Outcome<Rendered> {
    var photo, cutout := SourceOutcome(s, objects, job, around), CutoutOutcome(s, objects, job, around);
    match photo
    case StageFailure(f) => StageFailure(f)
    case Unclassified => Unclassified
    case Ok(original) =>
      if !job.studio then
        (if around.renderOriginal(original).Some? then Ok(around.renderOriginal(original).value) else StageFailure(INVALID_SOURCE))
      else match cutout
        case StageFailure(f) => StageFailure(f)
        case Unclassified => Unclassified
        case Ok(c) => ComposeOutcome(c, around)
  }

  function Produced(s: Setup, job: ClaimedJob, bytes: Bytes): StoredObject {
    StoredObject(bytes, Some(s.sha(bytes)), Some(job.id), None)
  }

  /** The objects an attempt leaves. */
  function AfterAttempt(s: Setup, objects: Objects, job: ClaimedJob, around: Surroundings): Objects {
    var staged, rendered := AfterStaging(s, objects, job, around), RenderOutcome(s, objects, job, around);
    if !rendered.Ok? then staged
    else
      var output := Put(staged, OutputOf(job.id), Produced(s, job, rendered.value.bytes), around.storeOutput);
      if around.storeOutput != Written then output
      else Put(output, PreviewOf(job.id), Produced(s, job, rendered.value.preview), around.storePreview)
  }

  function RequestOf(cutout: Option<Cutout>): Option<RequestId> {
    if cutout.Some? then cutout.value.requestId else None
  }

  function AttemptResult(s: Setup, objects: Objects, job: ClaimedJob, around: Surroundings): ExecutionResult {
    var rendered, requestId := RenderOutcome(s, objects, job, around), RequestOf(ComposedFrom(s, objects, job, around));
    match rendered
    case StageFailure(f) => ExecutionFailed(f)
    case Unclassified => ExecutionFailed(Failure(StorageStage, Network, None))
    case Ok(image) =>
      if around.storeOutput != Written || around.storePreview != Written
      then ExecutionFailed(Failure(StorageStage, Network, requestId))
      else ExecutionOk(s.sha(image.bytes), OutputOf(job.id), PreviewOf(job.id), |image.bytes|, requestId)
  }

  class ProcessingJobExecutor {
    const storage: ObjectStorage
    const provider: ImageProvider
    const sha: Bytes -> Digest

    ghost function Setting(): Setup {
      Setup(sha, storage.limits)
    }

    constructor (storage: ObjectStorage, provider: ImageProvider, sha: Bytes -> Digest)
      ensures this.storage == storage && this.provider == provider && this.sha == sha
    {
      this.storage, this.provider, this.sha := storage, provider, sha;
    }

    method ReadValidatedSource(job: ClaimedJob, around: Surroundings) returns (photo: Outcome<Bytes>)
      ensures photo == SourceOutcome(Setting(), storage.objects, job, around)
    {
      if job.size > storage.limits.maximumInputBytes { return StageFailure(INVALID_SOURCE); }
      var source := storage.GetRequired(OriginalOf(job.asset), around.sourceReadFails);
      if !source.Ok? { return Unclassified; }
      var bytes := source.value.bytes;
      if |bytes| != job.size || |bytes| > storage.limits.maximumInputBytes { return StageFailure(INVALID_SOURCE); }
      if job.checksum.Some? && sha(bytes) != job.checksum.value { return StageFailure(INVALID_SOURCE); }
      var inspection := around.inspect(bytes);
      match inspection {
        case Refused(kind) => return StageFailure(Failure(SourceStage, kind, None));
        case Inspected(image) => return Ok(image);
      }
    }

    /** The staged cutout, or a new one stored under the job's key before it is used. */
    method ObtainCutout(job: ClaimedJob, around: Surroundings) returns (cutout: Outcome<Cutout>)
      requires SourceOutcome(Setting(), storage.objects, job, around).Ok? && job.studio
      modifies storage, provider
      ensures cutout == CutoutOutcome(Setting(), old(storage.objects), job, around)
      ensures storage.objects == AfterStaging(Setting(), old(storage.objects), job, around)
      ensures provider.calls == old(provider.calls) + if Pays(Setting(), old(storage.objects), job, around) then [job.id] else []
    {
      hide SourceOutcome;
      var staged := storage.GetOptional(CutoutOf(job.id), around.stagedReadFails);
      if !staged.Ok? { return Unclassified; }
      if staged.value.Some? && staged.value.value.checksum == Some(sha(staged.value.value.bytes)) {
        return Ok(Cutout(staged.value.value.bytes, staged.value.value.requestId));
      }
      var result := provider.RemoveBackground(job.id, around.provider);
      match result {
        case NotRemoved(kind, requestId) => return StageFailure(Failure(ProviderStage, kind, requestId));
        case Removed(answer) =>
          var item := StoredObject(answer.bytes, Some(sha(answer.bytes)), Some(job.id), answer.requestId);
          var threw := storage.Store(CutoutOf(job.id), item, around.stage);
          return if threw then Unclassified else Ok(answer);
      }
    }

    method Render(job: ClaimedJob, photo: Bytes, around: Surroundings) returns (rendered: Outcome<Rendered>, cutout: Option<Cutout>)
      requires SourceOutcome(Setting(), storage.objects, job, around) == Ok(photo)
      modifies storage, provider
      ensures rendered == RenderOutcome(Setting(), old(storage.objects), job, around)
      ensures cutout == ComposedFrom(Setting(), old(storage.objects), job, around)
      ensures storage.objects == AfterStaging(Setting(), old(storage.objects), job, around)
      ensures provider.calls == old(provider.calls) + if Pays(Setting(), old(storage.objects), job, around) then [job.id] else []
    {
      hide SourceOutcome, CutoutOutcome;
      if !job.studio {
        var image := around.renderOriginal(photo);
        return if image.Some? then Ok(image.value) else StageFailure(INVALID_SOURCE), None;
      }
      var obtained := ObtainCutout(job, around);
      match obtained {
        case StageFailure(f) => return StageFailure(f), None;
        case Unclassified => return Unclassified, None;
        case Ok(c) => return ComposeOutcome(c, around), Some(c);
      }
    }

    /** One attempt at the job. */
    method Execute(job: ClaimedJob, around: Surroundings) returns (result: ExecutionResult)
      modifies storage, provider
      ensures result == AttemptResult(Setting(), old(storage.objects), job, around)
      ensures storage.objects == AfterAttempt(Setting(), old(storage.objects), job, around)
      ensures provider.calls == old(provider.calls) + if Pays(Setting(), old(storage.objects), job, around) then [job.id] else []
    {
      hide SourceOutcome, CutoutOutcome, ComposedFrom, AfterStaging;
      var photo := ReadValidatedSource(job, around);
      match photo {
        case StageFailure(f) => NoSourceNoCutout(Setting(), storage.objects, job, around); return ExecutionFailed(f);
        case Unclassified =>
          NoSourceNoCutout(Setting(), storage.objects, job, around);
          return ExecutionFailed(Failure(StorageStage, Network, None));
        case Ok(original) =>
          var rendered, cutout := Render(job, original, around);
          match rendered {
            case StageFailure(f) => return ExecutionFailed(f);
            case Unclassified => return ExecutionFailed(Failure(StorageStage, Network, None));
            case Ok(image) =>
              var threw := storage.Store(OutputOf(job.id), Produced(Setup(sha, storage.limits), job, image.bytes), around.storeOutput);
              if threw { return ExecutionFailed(Failure(StorageStage, Network, RequestOf(cutout))); }
              threw := storage.Store(PreviewOf(job.id), Produced(Setup(sha, storage.limits), job, image.preview), around.storePreview);
              if threw { return ExecutionFailed(Failure(StorageStage, Network, RequestOf(cutout))); }
              return ExecutionOk(sha(image.bytes), OutputOf(job.id), PreviewOf(job.id), |image.bytes|, RequestOf(cutout));
          }
      }
    }
  }

  lemma NoSourceNoCutout(s: Setup, objects: Objects, job: ClaimedJob, around: Surroundings)
    requires !SourceOutcome(s, objects, job, around).Ok?
    ensures AfterStaging(s, objects, job, around) == objects && !Pays(s, objects, job, around)
  {
  }

  // ----- any sequence of attempts -----

  datatype World = World(objects: Objects, calls: seq<JobId>)

  function AfterExecution(s: Setup, w: World, job: ClaimedJob, around: Surroundings): World {
    World(AfterAttempt(s, w.objects, job, around), w.calls + if Pays(s, w.objects, job, around) then [job.id] else [])
  }

  /** Attempts at any jobs, one after another, each in surroundings of its own. */
  ghost predicate IsHistory(s: Setup, worlds: seq<World>, jobs: seq<ClaimedJob>, arounds: seq<Surroundings>) {
    && |worlds| == |jobs| + 1 == |arounds| + 1
    && forall i :: 0 <= i < |jobs| ==> worlds[i + 1] == AfterExecution(s, worlds[i], jobs[i], arounds[i])
  }

  lemma AttemptKeepsStaged(s: Setup, w: World, job: ClaimedJob, around: Surroundings, id: JobId)
    requires Staged(s, w.objects, id)
    ensures var after := AfterExecution(s, w, job, around);
            && CutoutOf(id) in after.objects && after.objects[CutoutOf(id)] == w.objects[CutoutOf(id)]
            && multiset(after.calls)[id] == multiset(w.calls)[id]
  {
    hide SourceOutcome, StagedUnreadable, CutoutOutcome, RenderOutcome;
  }

  /** Once staged, a cutout stays, and the provider is never called for its job again. */
  lemma {:induction false} StagedIsPaidOnce(s: Setup, worlds: seq<World>, jobs: seq<ClaimedJob>, arounds: seq<Surroundings>, id: JobId,
                                             i: nat, j: nat)
    requires IsHistory(s, worlds, jobs, arounds) && i <= j < |worlds| && Staged(s, worlds[i].objects, id)
    ensures CutoutOf(id) in worlds[j].objects && worlds[j].objects[CutoutOf(id)] == worlds[i].objects[CutoutOf(id)]
    ensures multiset(worlds[j].calls)[id] == multiset(worlds[i].calls)[id]
    decreases j
  {
    hide AfterExecution;
    if i < j {
      StagedIsPaidOnce(s, worlds, jobs, arounds, id, i, j - 1);
      assert worlds[j - 1 + 1] == AfterExecution(s, worlds[j - 1], jobs[j - 1], arounds[j - 1]);
      AttemptKeepsStaged(s, worlds[j - 1], jobs[j - 1], arounds[j - 1], id);
    }
  }

  /** Every later attempt that composes works from the staged bytes, and each does that can read them and its original. */
  lemma LaterAttemptsReuse(s: Setup, worlds: seq<World>, jobs: seq<ClaimedJob>, arounds: seq<Surroundings>, id: JobId, i: nat, k: nat)
    requires IsHistory(s, worlds, jobs, arounds) && i <= k < |jobs| && Staged(s, worlds[i].objects, id) && jobs[k].id == id
    ensures var used := ComposedFrom(s, worlds[k].objects, jobs[k], arounds[k]);
            && (used.Some? ==> used.value.bytes == worlds[i].objects[CutoutOf(id)].bytes)
            && (used.Some? <==>
                  && SourceOutcome(s, worlds[k].objects, jobs[k], arounds[k]).Ok? && jobs[k].studio
                  && Read(worlds[k].objects, CutoutOf(id), s.limits, arounds[k].stagedReadFails).Ok?)
  {
    StagedIsPaidOnce(s, worlds, jobs, arounds, id, i, k);
    hide IsHistory, SourceOutcome;
  }

  lemma DeliveredIsStaged(s: Setup, w: World, job: ClaimedJob, around: Surroundings)
    requires Pays(s, w.objects, job, around) && around.provider.Removed? && around.stage != Lost
    ensures Staged(s, AfterExecution(s, w, job, around).objects, job.id)
  {
    hide SourceOutcome, StagedUnreadable, RenderOutcome;
  }

  /** A job pays twice only when what the first call returned was never stored. */
  lemma PaidAgainOnlyIfLost(s: Setup, worlds: seq<World>, jobs: seq<ClaimedJob>, arounds: seq<Surroundings>, i: nat, k: nat)
    requires IsHistory(s, worlds, jobs, arounds) && i < k < |jobs| && jobs[i].id == jobs[k].id
    requires Pays(s, worlds[i].objects, jobs[i], arounds[i]) && Pays(s, worlds[k].objects, jobs[k], arounds[k])
    ensures arounds[i].provider.NotRemoved? || arounds[i].stage == Lost
  {
    if arounds[i].provider.Removed? && arounds[i].stage != Lost {
      DeliveredIsStaged(s, worlds[i], jobs[i], arounds[i]);
      StagedIsPaidOnce(s, worlds, jobs, arounds, jobs[i].id, i + 1, k);
    }
  }

  /** A delivered cutout that storage can hand back is what every later attempt composes from, once its reads succeed. */
  lemma DeliveredCutoutIsReused(s: Setup, worlds: seq<World>, jobs: seq<ClaimedJob>, arounds: seq<Surroundings>, i: nat, k: nat)
    requires IsHistory(s, worlds, jobs, arounds) && i < k < |jobs| && jobs[i].id == jobs[k].id && jobs[k].studio
    requires Pays(s, worlds[i].objects, jobs[i], arounds[i]) && arounds[i].provider.Removed? && arounds[i].stage != Lost
    requires 1 <= |arounds[i].provider.cutout.bytes| <= s.limits.maximumReadBytes
    requires SourceOutcome(s, worlds[k].objects, jobs[k], arounds[k]).Ok? && !arounds[k].stagedReadFails
    ensures !Pays(s, worlds[k].objects, jobs[k], arounds[k])
    ensures ComposedFrom(s, worlds[k].objects, jobs[k], arounds[k]) == Some(arounds[i].provider.cutout)
  {
    hide SourceOutcome;
    var id := jobs[i].id;
    assert worlds[i + 1] == AfterExecution(s, worlds[i], jobs[i], arounds[i]);
    DeliveredIsStaged(s, worlds[i], jobs[i], arounds[i]);
    DeliveredIsKept(s, worlds[i], jobs[i], arounds[i]);
    hide AfterExecution;
    StagedIsPaidOnce(s, worlds, jobs, arounds, id, i + 1, k);
    assert worlds[k].objects[CutoutOf(id)] == StagedObject(s, jobs[i], arounds[i].provider.cutout);
  }

  lemma DeliveredIsKept(s: Setup, w: World, job: ClaimedJob, around: Surroundings)
    requires Pays(s, w.objects, job, around) && around.provider.Removed? && around.stage != Lost
    ensures var after := AfterExecution(s, w, job, around).objects;
            CutoutOf(job.id) in after && after[CutoutOf(job.id)] == StagedObject(s, job, around.provider.cutout)
  {
    hide SourceOutcome, StagedUnreadable, RenderOutcome;
  }

  /** The provider is asked only about an original of the committed size and checksum that decoded. */
  lemma PaidOnlyForValidSource(s: Setup, objects: Objects, job: ClaimedJob, around: Surroundings)
    requires Pays(s, objects, job, around)
    ensures OriginalOf(job.asset) in objects
    ensures var bytes := objects[OriginalOf(job.asset)].bytes;
            && |bytes| == job.size <= s.limits.maximumInputBytes
            && (job.checksum.Some? ==> s.sha(bytes) == job.checksum.value)
            && around.inspect(bytes).Inspected?
  {
  }

  /** A reported success has its output and preview stored, as reported: made of the stored cutout, or of the photo itself. */
  lemma SuccessIsStored(s: Setup, objects: Objects, job: ClaimedJob, around: Surroundings)
    requires AttemptResult(s, objects, job, around).ExecutionOk?
    ensures var result, after := AttemptResult(s, objects, job, around), AfterAttempt(s, objects, job, around);
            && result.outputKey in after && result.previewKey in after
            && result.checksum == s.sha(after[result.outputKey].bytes) && result.size == |after[result.outputKey].bytes|
            && after[result.outputKey].checksum == Some(result.checksum)
            && after[result.previewKey].checksum == Some(s.sha(after[result.previewKey].bytes))
            && (job.studio ==>
                  && Staged(s, after, job.id)
                  && around.compose(after[CutoutOf(job.id)].bytes)
                     == Composed(Rendered(after[result.outputKey].bytes, after[result.previewKey].bytes)))
            && (!job.studio ==>
                  && SourceOutcome(s, objects, job, around).Ok?
                  && around.renderOriginal(SourceOutcome(s, objects, job, around).value)
                     == Some(Rendered(after[result.outputKey].bytes, after[result.previewKey].bytes)))
  {
    hide SourceOutcome, Read;
  }

  /** An attempt writes only its own job's keys, and stores its output only after a complete rendering. */
  lemma AttemptWritesOwnKeys(s: Setup, objects: Objects, job: ClaimedJob, around: Surroundings, key: Key)
    requires key !in {OutputOf(job.id), PreviewOf(job.id), CutoutOf(job.id)} ||
             (!RenderOutcome(s, objects, job, around).Ok? && key != CutoutOf(job.id))
    ensures key in AfterAttempt(s, objects, job, around) <==> key in objects
    ensures key in objects ==> AfterAttempt(s, objects, job, around)[key] == objects[key]
  {
    hide SourceOutcome, StagedUnreadable, CutoutOutcome, RenderOutcome;
  }
}
