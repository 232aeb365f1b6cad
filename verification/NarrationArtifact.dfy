// The narration worker's storage and speech calls as one sequential program: the protocol splits them into steps,
// and the two agree.

module NarrationArtifact {
  import opened Wrappers
  import opened StorageKeys
  import opened FileStorage
  import opened MediaTransactions
  import opened MediaProtocol

  // What the protocol's steps say the worker holds before it writes: an artifact a previous attempt left, or the
  // speech to write.
  datatype Held = Existing(artifact: Artifact) | Fresh(payload: Payload)

  function HeldBy(env: Env, files: Files, k: Worker, speech: Option<Bytes>): Result<Held, Cause>
    requires k.task.AudioTask?
  {
    match LookedUp(env, files, k)
    case Stored(artifact, _) => Ok(Existing(artifact))
    case Failing(c) => Err(c)
    case _ =>
      match Spoken(k, speech)
      case Checking(p) => Ok(Fresh(p))
      case Failing(c) => Err(c)
      case _ => Err(ToolFailure)
  }

  // An artifact that is there is reused and the store left alone. Otherwise the speech is written under the canonical
  // key while others link their files; that fails exactly when the speech is empty, the key is bad, or whoever linked
  // the target first linked other content. Either way a later attempt finds what this one returned.
  method Execute(env: Env, storage: LocalFileStorage, k: Worker, speech: Option<Bytes>, nonce: string,
                 others: seq<Files>) returns (r: Result<Artifact, Cause>)
    requires k.task.AudioTask? && storage.digest == env.digest && nonce !in storage.temporaries && |others| == 3
    modifies storage
    ensures storage.temporaries == old(storage.temporaries) && Preserves(old(storage.files), storage.files)
    ensures match HeldBy(env, old(storage.files), k, speech)
            case Err(c) => r == Err(c) && storage.files == old(storage.files)
            case Ok(Existing(artifact)) => r == Ok(artifact) && storage.files == old(storage.files)
            case Ok(Fresh(p)) =>
              var target, stores := TargetForKey(KeyOf(k)), [old(storage.files), others[0], others[1]];
              && storage.files == StoreAfter(old(storage.files), KeyOf(k), p.data, others)
              && (r.Err? <==>
                    || p.data == [] || target.Err?
                    || env.digest(Winner(stores, target.value, p.data)) != env.digest(p.data))
              && (r.Err? ==> r.error.Storage?)
    ensures forall later :: r.Ok? && r.value.byteSize >= 1 && Preserves(storage.files, later) ==>
      Get(env.digest, later, KeyOf(k)) == Ok(Some(r.value))
  {
    var found := storage.GetArtifact(KeyOf(k));
    if found.Err? {
      return Err(Storage(found.error));
    }
    if found.value.Some? {
      return Ok(found.value.value);
    }
    if k.task.row.provider != "openai" {
      return Err(UnsupportedTool);
    }
    if speech.None? {
      return Err(ToolFailure);
    }
    WriteSpec(env.digest, storage.files, KeyOf(k), speech.value, others);
    var written := storage.Write(KeyOf(k), speech.value, nonce, others);
    if written.Err? {
      return Err(Storage(written.error));
    }
    return Ok(written.value);
  }
}
