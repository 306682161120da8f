/** When an attempt succeeds, when it pays, and what each failure reports, told from storage, provider and pipeline. */
module ExecutionLaws {
  import opened Options
  import opened JobExecution
  import opened JobRows

  /** Some object under the key can be read: there, neither empty nor too long, and the read does not fail. */
  ghost predicate Readable(objects: Objects, key: Key, limits: Limits, fails: bool) {
    !fails && key in objects && 1 <= |objects[key].bytes| <= limits.maximumReadBytes
  }

  /** The original is readable, has the committed size and checksum, and decodes to `photo`. */
  ghost predicate HasPhoto(s: Setup, objects: Objects, job: ClaimedJob, around: Surroundings, photo: Bytes) {
    && job.size <= s.limits.maximumInputBytes && Readable(objects, OriginalOf(job.asset), s.limits, around.sourceReadFails)
    && var bytes := objects[OriginalOf(job.asset)].bytes;
       |bytes| == job.size && (job.checksum.Some? ==> job.checksum.value == s.sha(bytes)) && around.inspect(bytes) == Inspected(photo)
  }

  /** The cutout is staged and can be read, with the checksum of its bytes. */
  ghost predicate HasStaged(s: Setup, objects: Objects, job: ClaimedJob, around: Surroundings) {
    && Readable(objects, CutoutOf(job.id), s.limits, around.stagedReadFails)
    && objects[CutoutOf(job.id)].checksum == Some(s.sha(objects[CutoutOf(job.id)].bytes))
  }

  /** The staged cutout was looked for and is not there, or is not what its checksum says. */
  ghost predicate LacksStaged(s: Setup, objects: Objects, job: ClaimedJob, around: Surroundings) {
    && !around.stagedReadFails
    && (CutoutOf(job.id) in objects ==>
          && Readable(objects, CutoutOf(job.id), s.limits, around.stagedReadFails)
          && objects[CutoutOf(job.id)].checksum != Some(s.sha(objects[CutoutOf(job.id)].bytes)))
  }

  /** The attempt works from `cutout`: the staged one, or one paid for and staged now. */
  ghost predicate Obtains(s: Setup, objects: Objects, job: ClaimedJob, around: Surroundings, cutout: Cutout) {
    || (HasStaged(s, objects, job, around)
        && cutout == Cutout(objects[CutoutOf(job.id)].bytes, objects[CutoutOf(job.id)].requestId))
    || (LacksStaged(s, objects, job, around) && around.provider == Removed(cutout) && around.stage == Written)
  }

  lemma PhotoIsSource(s: Setup, objects: Objects, job: ClaimedJob, around: Surroundings, photo: Bytes)
    ensures SourceOutcome(s, objects, job, around) == Ok(photo) <==> HasPhoto(s, objects, job, around, photo)
  {
  }

  lemma ObtainedIsCutout(s: Setup, objects: Objects, job: ClaimedJob, around: Surroundings, cutout: Cutout)
    ensures CutoutOutcome(s, objects, job, around) == Ok(cutout) <==> Obtains(s, objects, job, around, cutout)
  {
  }

  /** The provider is asked exactly for a studio job with a photo whose staged cutout is missing or corrupt. */
  lemma PaysExactlyWithoutCutout(s: Setup, objects: Objects, job: ClaimedJob, around: Surroundings)
    ensures Pays(s, objects, job, around) <==>
              job.studio && LacksStaged(s, objects, job, around) && exists photo :: HasPhoto(s, objects, job, around, photo)
  {
    if SourceOutcome(s, objects, job, around).Ok? {
      PhotoIsSource(s, objects, job, around, SourceOutcome(s, objects, job, around).value);
    } else {
      forall photo: Bytes ensures !HasPhoto(s, objects, job, around, photo) { PhotoIsSource(s, objects, job, around, photo); }
    }
    hide SourceOutcome, HasPhoto;
  }

  /** What a rendering is made of: the photo itself, or for a studio job the cutout. */
  ghost predicate Renders(s: Setup, objects: Objects, job: ClaimedJob, around: Surroundings, image: Rendered) {
    exists photo :: HasPhoto(s, objects, job, around, photo) &&
      if job.studio then exists cutout :: Obtains(s, objects, job, around, cutout) && around.compose(cutout.bytes) == Composed(image)
      else around.renderOriginal(photo) == Some(image)
  }

  lemma RenderedIsRendering(s: Setup, objects: Objects, job: ClaimedJob, around: Surroundings, image: Rendered)
    ensures RenderOutcome(s, objects, job, around) == Ok(image) <==> Renders(s, objects, job, around, image)
  {
    hide SourceOutcome, CutoutOutcome, HasPhoto, Obtains;
    if SourceOutcome(s, objects, job, around).Ok? {
      PhotoIsSource(s, objects, job, around, SourceOutcome(s, objects, job, around).value);
    }
    if CutoutOutcome(s, objects, job, around).Ok? {
      ObtainedIsCutout(s, objects, job, around, CutoutOutcome(s, objects, job, around).value);
    }
    forall photo: Bytes | HasPhoto(s, objects, job, around, photo) ensures SourceOutcome(s, objects, job, around) == Ok(photo) {
      PhotoIsSource(s, objects, job, around, photo);
    }
    forall cutout: Cutout | Obtains(s, objects, job, around, cutout) ensures CutoutOutcome(s, objects, job, around) == Ok(cutout) {
      ObtainedIsCutout(s, objects, job, around, cutout);
    }
  }

  /** An attempt succeeds exactly when its image is rendered and both objects are written, and then they hold that image. */
  lemma SucceedsExactly(s: Setup, objects: Objects, job: ClaimedJob, around: Surroundings)
    ensures AttemptResult(s, objects, job, around).ExecutionOk? <==>
              around.storeOutput == Written && around.storePreview == Written && exists image :: Renders(s, objects, job, around, image)
    ensures forall image :: Renders(s, objects, job, around, image) && around.storeOutput == Written && around.storePreview == Written ==>
              var result, after := AttemptResult(s, objects, job, around), AfterAttempt(s, objects, job, around);
              && result == ExecutionOk(s.sha(image.bytes), OutputOf(job.id), PreviewOf(job.id), |image.bytes|, result.requestId)
              && OutputOf(job.id) in after && after[OutputOf(job.id)].bytes == image.bytes
              && PreviewOf(job.id) in after && after[PreviewOf(job.id)].bytes == image.preview
  {
    hide SourceOutcome, CutoutOutcome, Renders, ComposedFrom, AfterStaging, RenderOutcome;
    if RenderOutcome(s, objects, job, around).Ok? {
      RenderedIsRendering(s, objects, job, around, RenderOutcome(s, objects, job, around).value);
    }
    forall image: Rendered | Renders(s, objects, job, around, image) ensures RenderOutcome(s, objects, job, around) == Ok(image) {
      RenderedIsRendering(s, objects, job, around, image);
    }
  }

  // ----- what failures report -----

  /** Before there is a photo: the size committed, the read, the size found, the checksum, the decoder, in this order. */
  lemma SourceFailures(s: Setup, objects: Objects, job: ClaimedJob, around: Surroundings)
    ensures var result := AttemptResult(s, objects, job, around);
            var readable := Readable(objects, OriginalOf(job.asset), s.limits, around.sourceReadFails);
            && (job.size > s.limits.maximumInputBytes ==> result == ExecutionFailed(Failure(SourceStage, InvalidImage, None)))
            && (job.size <= s.limits.maximumInputBytes && !readable ==> result == ExecutionFailed(Failure(StorageStage, Network, None)))
            && (job.size <= s.limits.maximumInputBytes && readable ==>
                  var bytes := objects[OriginalOf(job.asset)].bytes;
                  && (|bytes| != job.size || (job.checksum.Some? && job.checksum.value != s.sha(bytes)) ==>
                        result == ExecutionFailed(Failure(SourceStage, InvalidImage, None)))
                  && (|bytes| == job.size && (job.checksum.Some? ==> job.checksum.value == s.sha(bytes)) && around.inspect(bytes).Refused? ==>
                        result == ExecutionFailed(Failure(SourceStage, around.inspect(bytes).kind, None))))
  {
    hide CutoutOutcome, ComposedFrom;
  }

  /** With a photo: a failed rendering of the original, an unreadable staged cutout, the provider's refusal, an unstaged answer. */
  lemma CutoutFailures(s: Setup, objects: Objects, job: ClaimedJob, around: Surroundings, photo: Bytes)
    requires HasPhoto(s, objects, job, around, photo)
    ensures var result := AttemptResult(s, objects, job, around);
            && (!job.studio && around.renderOriginal(photo) == None ==> result == ExecutionFailed(Failure(SourceStage, InvalidImage, None)))
            && (job.studio && !HasStaged(s, objects, job, around) && !LacksStaged(s, objects, job, around) ==>
                  result == ExecutionFailed(Failure(StorageStage, Network, None)))
            && (job.studio && LacksStaged(s, objects, job, around) && around.provider.NotRemoved? ==>
                  result == ExecutionFailed(Failure(ProviderStage, around.provider.kind, around.provider.requestId)))
            && (job.studio && LacksStaged(s, objects, job, around) && around.provider.Removed? && around.stage != Written ==>
                  result == ExecutionFailed(Failure(StorageStage, Network, None)))
  {
    PhotoIsSource(s, objects, job, around, photo);
    hide SourceOutcome, HasPhoto;
  }

  /** With a cutout: no vehicle in it, a failed composition, and failed writes, each under the provider's request. */
  lemma CompositionFailures(s: Setup, objects: Objects, job: ClaimedJob, around: Surroundings, photo: Bytes, cutout: Cutout)
    requires HasPhoto(s, objects, job, around, photo) && job.studio && Obtains(s, objects, job, around, cutout)
    ensures var result, composed := AttemptResult(s, objects, job, around), around.compose(cutout.bytes);
            && (composed == NoVehicleDetected ==> result == ExecutionFailed(Failure(ProviderStage, NonCarImage, cutout.requestId)))
            && (composed == CompositionFailed ==> result == ExecutionFailed(Failure(CompositionStage, Internal, cutout.requestId)))
            && (composed.Composed? && (around.storeOutput != Written || around.storePreview != Written) ==>
                  result == ExecutionFailed(Failure(StorageStage, Network, cutout.requestId)))
            && (composed.Composed? && around.storeOutput == Written && around.storePreview == Written ==>
                  result.ExecutionOk? && result.requestId == cutout.requestId)
  {
    PhotoIsSource(s, objects, job, around, photo);
    ObtainedIsCutout(s, objects, job, around, cutout);
    hide SourceOutcome, HasPhoto, CutoutOutcome, Obtains;
  }
}
