// The write-once artifact store: a file is created whole by linking a finished temporary file to its
// target, and a target that exists is never replaced.

module FileStorage {
  import opened Wrappers
  import opened StorageKeys

  newtype Byte = x: int | 0 <= x < 256

  type Bytes = seq<Byte>

  type Files = map<Path, Bytes>

  // SHA-256 of the bytes, printed in hexadecimal.
  type Digest = Bytes -> string

  datatype Artifact = Artifact(storageKey: string, byteSize: int, contentSha256: string)

  datatype StorageError = EmptyData | InvalidKey | Conflict | Disappeared | EmptyContent

  function ArtifactOf(digest: Digest, storageKey: string, data: Bytes): Artifact {
    Artifact(storageKey, |data|, digest(data))
  }

  // The check write() makes before it starts and again when its link fails.
  function ExistingArtifact(digest: Digest, files: Files, storageKey: string, target: Path, expectedSha256: string)
    : Result<Option<Artifact>, StorageError>
  {
    if target !in files then Ok(None)
    else if digest(files[target]) != expectedSha256 then Err(Conflict)
    else Ok(Some(ArtifactOf(digest, storageKey, files[target])))
  }

  function Read(files: Files, storageKey: string): Result<Option<Bytes>, StorageError> {
    var target := TargetForKey(storageKey);
    if target.Err? then Err(InvalidKey)
    else if target.value !in files then Ok(None)
    else if files[target.value] == [] then Err(EmptyContent)
    else Ok(Some(files[target.value]))
  }

  function Get(digest: Digest, files: Files, storageKey: string): Result<Option<Artifact>, StorageError> {
    var data :- Read(files, storageKey);
    Ok(if data.Some? then Some(ArtifactOf(digest, storageKey, data.value)) else None)
  }

  // os.link: atomic, and refused when the target exists.
  function Link(files: Files, target: Path, data: Bytes): Files {
    if target in files then files else files[target := data]
  }

  // files' has every file of files, unchanged.
  predicate Preserves(files: Files, files': Files) {
    forall p :: p in files ==> p in files' && files'[p] == files[p]
  }

  // The store after a write during which others link these files.
  function StoreAfter(files: Files, storageKey: string, data: Bytes, others: seq<Files>): Files
    requires |others| == 3
  {
    var target := TargetForKey(storageKey);
    if data == [] || target.Err? then files
    else if target.value in others[0] + files then others[0] + files
    else others[2] + Link(others[1] + (others[0] + files), target.value, data)
  }

  // What the write reports about the content it finds at the end.
  function Found(digest: Digest, files: Files, storageKey: string, target: Path,
                 data: Bytes): Result<Artifact, StorageError>
  {
    match ExistingArtifact(digest, files, storageKey, target, digest(data))
    case Ok(Some(artifact)) => Ok(artifact)
    case Ok(None) => Err(Disappeared)
    case Err(e) => Err(e)
  }

  function Reported(digest: Digest, files: Files, storageKey: string, data: Bytes): Result<Artifact, StorageError> {
    var target := TargetForKey(storageKey);
    if data == [] then Err(EmptyData)
    else if target.Err? then Err(InvalidKey)
    else Found(digest, files, storageKey, target.value, data)
  }

  class LocalFileStorage {
    const digest: Digest
    var files: Files
    var temporaries: map<string, Bytes>

    constructor (digest: Digest)
      ensures this.digest == digest && files == map[] && temporaries == map[]
    {
      this.digest := digest;
      files := map[];
      temporaries := map[];
    }

    // Other writers link files at any moment: `others` are the files they link before the first check, before
    // this writer's link and before the second check. WriteSpec says what that comes to.
    method Write(storageKey: string, data: Bytes, nonce: string, others: seq<Files>)
      returns (r: Result<Artifact, StorageError>)
      requires nonce !in temporaries && |others| == 3
      modifies this
      ensures temporaries == old(temporaries)
      ensures files == StoreAfter(old(files), storageKey, data, others)
      ensures r == Reported(digest, files, storageKey, data)
    {
      if data == [] {
        return Err(EmptyData);
      }
      var target := TargetForKey(storageKey);
      if target.Err? {
        return Err(InvalidKey);
      }
      files := others[0] + files;
      var existing := ExistingArtifact(digest, files, storageKey, target.value, digest(data));
      if existing.Err? {
        return Err(existing.error);
      }
      if existing.value.Some? {
        return Ok(existing.value.value);
      }
      r := WriteNew(target.value, storageKey, data, nonce, others[1], others[2]);
    }

    // The target was free a moment ago: write a temporary file, link it, and remove it whatever happens.
    method WriteNew(target: Path, storageKey: string, data: Bytes, nonce: string, before: Files, after: Files)
      returns (r: Result<Artifact, StorageError>)
      requires nonce !in temporaries
      modifies this
      ensures temporaries == old(temporaries)
      ensures files == after + Link(before + old(files), target, data)
      ensures r == Found(digest, files, storageKey, target, data)
    {
      temporaries := temporaries[nonce := data];
      files := before + files;
      var linked := target !in files;
      files := Link(files, target, temporaries[nonce]);
      files := after + files;
      temporaries := temporaries - {nonce};
      if linked {
        return Ok(ArtifactOf(digest, storageKey, data));
      }
      var existing := ExistingArtifact(digest, files, storageKey, target, digest(data));
      if existing.Err? {
        return Err(existing.error);
      }
      if existing.value.None? {
        return Err(Disappeared);
      }
      return Ok(existing.value.value);
    }

    // What a reader gets is what a writer linked: nothing for an absent file, an error for an empty one.
    method GetArtifact(storageKey: string) returns (r: Result<Option<Artifact>, StorageError>)
      ensures r == Get(digest, files, storageKey)
    {
      var target := TargetForKey(storageKey);
      if target.Err? {
        return Err(InvalidKey);
      }
      if target.value !in files {
        return Ok(None);
      }
      var data := files[target.value];
      if data == [] {
        return Err(EmptyContent);
      }
      return Ok(Some(ArtifactOf(digest, storageKey, data)));
    }
  }

  // The content of the target: the first of the stores that has it, or else the writer's own data.
  function Winner(stores: seq<Files>, target: Path, data: Bytes): Bytes {
    if stores == [] then data
    else if target in stores[0] then stores[0][target]
    else Winner(stores[1..], target, data)
  }

  // Whoever links the target first wins. Every file that existed stays as it was, and no file appears that nobody
  // linked whole. The write fails exactly on empty data, on a bad key, and when the winner's content has another
  // digest; otherwise it reports the winner's content.
  lemma WriteSpec(digest: Digest, files: Files, storageKey: string, data: Bytes, others: seq<Files>)
    requires |others| == 3
    ensures var after := StoreAfter(files, storageKey, data, others);
      var target, r := TargetForKey(storageKey), Reported(digest, after, storageKey, data);
      && Preserves(files, after)
      && (forall p :: p in after && p !in files ==>
            || (exists k :: 0 <= k < 3 && p in others[k] && after[p] == others[k][p])
            || (target == Ok(p) && after[p] == data))
      && (r.Err? <==>
            || data == [] || target.Err?
            || digest(Winner([files, others[0], others[1]], target.value, data)) != digest(data))
      && r != Err(Disappeared)
      && (r.Ok? ==>
            && target.Ok? && target.value in after
            && after[target.value] == Winner([files, others[0], others[1]], target.value, data)
            && r.value == ArtifactOf(digest, storageKey, after[target.value]))
  {
    var target := TargetForKey(storageKey);
    if data != [] && target.Ok? {
      WinnerOfThree(files, others[0], others[1], target.value, data);
      OnlyLinkedAppear(files, storageKey, data, others);
    }
  }

  lemma WinnerOfThree(a: Files, b: Files, c: Files, target: Path, data: Bytes)
    ensures Winner([a, b, c], target, data)
      == if target in a then a[target] else if target in b then b[target] else if target in c then c[target] else data
  {
    assert [a, b, c][1..] == [b, c] && [b, c][1..] == [c] && [c][1..] == [];
    assert Winner([b, c], target, data) == if target in b then b[target] else Winner([c], target, data);
  }

  lemma OnlyLinkedAppear(files: Files, storageKey: string, data: Bytes, others: seq<Files>)
    requires |others| == 3
    ensures var after := StoreAfter(files, storageKey, data, others);
      forall p :: p in after && p !in files ==>
        || (exists k :: 0 <= k < 3 && p in others[k] && after[p] == others[k][p])
        || (TargetForKey(storageKey) == Ok(p) && after[p] == data)
  {
    var after := StoreAfter(files, storageKey, data, others);
    forall p | p in after && p !in files && !(TargetForKey(storageKey) == Ok(p) && after[p] == data)
      ensures exists k :: 0 <= k < 3 && p in others[k] && after[p] == others[k][p]
    {
      var k := if p in others[0] then 0 else if p in others[1] then 1 else 2;
      assert p in others[k] && after[p] == others[k][p];
    }
  }

  // What a write reported is what every later lookup of the key finds, whatever else has been linked since.
  lemma WrittenIsFound(digest: Digest, files: Files, storageKey: string, data: Bytes, others: seq<Files>, later: Files)
    requires |others| == 3
    requires Preserves(StoreAfter(files, storageKey, data, others), later)
    ensures var r := Reported(digest, StoreAfter(files, storageKey, data, others), storageKey, data);
      r.Ok? && r.value.byteSize >= 1 ==> Get(digest, later, storageKey) == Ok(Some(r.value))
  {
    WriteSpec(digest, files, storageKey, data, others);
  }
}
