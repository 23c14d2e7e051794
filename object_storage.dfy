/** The path handling of `server/objectStorage.ts`: bucket/object paths, the configured search
    paths and private directory, the `/objects/...` entity paths and the content-type helpers.

    Environment variables are `Option<string>` parameters. The pathname `new URL(rawPath)`
    yields is a parameter too; the storage client calls are left out. */
module ObjectStorage {
  import opened Common

  // ---------------------------------------------------------------------------
  // parseObjectPath

  datatype ObjectLocation = ObjectLocation(bucketName: string, objectName: string)

  const InvalidPathMessage: string := "Invalid path: must contain at least a bucket name"

  /** The path with a leading `/` ensured. */
  function SlashPrefixed(path: string): (p: string)
    ensures StartsWith(p, "/")
    ensures StartsWith(path, "/") ==> p == path
    ensures !StartsWith(path, "/") ==> p == "/" + path
  {
    if StartsWith(path, "/") then path
    else
      StartsWithConcat("/", path);
      "/" + path
  }

  /** `parseObjectPath`: the first segment after the leading `/` names the bucket and the
      remaining segments, re-joined with `/`, name the object. */
  function ParseObjectPath(path: string): (r: Result<ObjectLocation, string>)
    ensures r.Err? <==> CountChar(SlashPrefixed(path), '/') < 2
    ensures r.Err? ==> r.error == InvalidPathMessage
    ensures r.Ok? ==> '/' !in r.value.bucketName
  {
    var parts := Split(SlashPrefixed(path), '/');
    SplitCount(SlashPrefixed(path), '/');
    if |parts| < 3 then Err(InvalidPathMessage)
    else Ok(ObjectLocation(parts[1], Join(parts[2..], "/")))
  }

  /** A slash-prefixed path is its second piece, a `/` and the re-joined rest, after a `/`. */
  lemma RebuildFromPieces(p: string)
    requires StartsWith(p, "/") && |Split(p, '/')| >= 3
    ensures var parts := Split(p, '/'); "/" + parts[1] + "/" + Join(parts[2..], "/") == p
  {
    var parts := Split(p, '/');
    assert p == ['/'] + p[1..];
    SplitLeadingSeparator(p[1..], '/');
    JoinSplit(p, '/');
    JoinCons(parts, "/");
    var tail := parts[1..];
    JoinCons(tail, "/");
    assert tail[0] == parts[1] && tail[1..] == parts[2..];
  }

  /** Putting the bucket and the object back together reproduces the slash-prefixed input. */
  lemma ParsedPathRebuilds(path: string)
    requires ParseObjectPath(path).Ok?
    ensures var loc := ParseObjectPath(path).value;
      "/" + loc.bucketName + "/" + loc.objectName == SlashPrefixed(path)
  {
    RebuildFromPieces(SlashPrefixed(path));
  }

  /** The pieces of `/bucket/object`: an empty one, the bucket, then the object's pieces. */
  lemma SplitOfLocation(bucketName: string, objectName: string)
    requires '/' !in bucketName
    ensures Split("/" + bucketName + "/" + objectName, '/') == [""] + ([bucketName] + Split(objectName, '/'))
  {
    var rest := bucketName + "/" + objectName;
    assert "/" + bucketName + "/" + objectName == ['/'] + rest;
    SplitLeadingSeparator(rest, '/');
    SplitAfterPrefix(bucketName, objectName, '/');
  }

  /** A bucket name without `/` and any object name are parsed back from `/bucket/object`. */
  lemma ParsePathOfLocation(bucketName: string, objectName: string)
    requires '/' !in bucketName
    ensures ParseObjectPath("/" + bucketName + "/" + objectName) == Ok(ObjectLocation(bucketName, objectName))
  {
    var p := "/" + bucketName + "/" + objectName;
    StartsWithConcat("/", bucketName + "/" + objectName);
    assert p == "/" + (bucketName + "/" + objectName);
    assert SlashPrefixed(p) == p;
    SplitOfLocation(bucketName, objectName);
    var parts := Split(p, '/');
    assert parts[1] == bucketName;
    assert parts[2..] == Split(objectName, '/');
    JoinSplit(objectName, '/');
    assert Join(parts[2..], "/") == objectName;
  }

  // ---------------------------------------------------------------------------
  // getPublicObjectSearchPaths

  const SearchPathsMessage: string := "PUBLIC_OBJECT_SEARCH_PATHS not set. Create a bucket in 'Object Storage' "
    + "tool and set PUBLIC_OBJECT_SEARCH_PATHS env var (comma-separated paths)."

  /** `.map((path) => path.trim())`. */
  function TrimAll(parts: seq<string>): (r: seq<string>)
    ensures |r| == |parts| && forall i :: 0 <= i < |r| ==> r[i] == Trim(parts[i])
  {
    if parts == [] then [] else TrimAll(parts[..|parts| - 1]) + [Trim(parts[|parts| - 1])]
  }

  /** `.filter((path) => path.length > 0)`. */
  function NonEmpty(parts: seq<string>): (r: seq<string>)
    ensures forall i :: 0 <= i < |r| ==> r[i] != []
    ensures forall x :: x in r <==> x in parts && x != []
  {
    if parts == [] then []
    else
      var init := NonEmpty(parts[..|parts| - 1]);
      var last := parts[|parts| - 1];
      assert parts == parts[..|parts| - 1] + [last];
      if last == [] then init else init + [last]
  }

  /** `Array.from(new Set(parts))`: each value once, at the place it first occurs. */
  function Dedupe(parts: seq<string>): (r: seq<string>)
    ensures forall x :: x in r <==> x in parts
  {
    if parts == [] then []
    else
      var init := Dedupe(parts[..|parts| - 1]);
      var last := parts[|parts| - 1];
      assert parts == parts[..|parts| - 1] + [last];
      if last in init then init else init + [last]
  }

  predicate Distinct(s: seq<string>) {
    forall i, j :: 0 <= i < j < |s| ==> s[i] != s[j]
  }

  /** No value is kept twice. */
  lemma {:induction false} DedupeDistinct(parts: seq<string>)
    ensures Distinct(Dedupe(parts))
  {
    if parts != [] {
      DedupeDistinct(parts[..|parts| - 1]);
    }
  }

  /** A value repeated at the end changes nothing: the first occurrence keeps its place. */
  lemma RepeatIsDropped(parts: seq<string>, x: string)
    requires x in parts
    ensures Dedupe(parts + [x]) == Dedupe(parts)
  {
    assert (parts + [x])[..|parts|] == parts;
  }

  /** A list without repeats is kept as it is, in the same order. */
  lemma {:induction false} DedupeOfDistinct(parts: seq<string>)
    requires Distinct(parts)
    ensures Dedupe(parts) == parts
  {
    if parts != [] {
      var init := parts[..|parts| - 1];
      DedupeOfDistinct(init);
      assert parts[|parts| - 1] !in init;
      assert parts == init + [parts[|parts| - 1]];
    }
  }

  /** A trimmed piece is empty or starts and ends with a non-whitespace character. */
  lemma TrimmedEnds(parts: seq<string>)
    ensures forall x :: x in TrimAll(parts) ==> x == [] || (!IsJsWhitespace(x[0]) && !IsJsWhitespace(x[|x| - 1]))
  {
    var t := TrimAll(parts);
    forall x | x in t
      ensures x == [] || (!IsJsWhitespace(x[0]) && !IsJsWhitespace(x[|x| - 1]))
    {
      var i :| 0 <= i < |t| && t[i] == x;
      assert x == Trim(parts[i]);
    }
  }

  /** The non-empty trimmed pieces start and end with a non-whitespace character. */
  lemma CandidateEnds(parts: seq<string>)
    ensures forall x :: x in NonEmpty(TrimAll(parts)) ==> x != [] && !IsJsWhitespace(x[0]) && !IsJsWhitespace(x[|x| - 1])
  {
    TrimmedEnds(parts);
  }

  /** The empty list splits into one empty piece, which the filter drops. */
  lemma UnsetListHasNoCandidates()
    ensures NonEmpty(TrimAll(Split("", ','))) == []
  {
    assert Split("", ',') == [""];
    assert TrimAll([""]) == [Trim("")] == [""];
    assert [""][..0] == [];
  }

  /** The pieces of the comma-separated list, trimmed, without the empty ones. */
  function SearchPathCandidates(env: Option<string>): (paths: seq<string>)
    ensures env.None? ==> paths == []
    ensures forall x :: x in paths ==> x != [] && !IsJsWhitespace(x[0]) && !IsJsWhitespace(x[|x| - 1])
  {
    var pathsStr := if env.Some? then env.value else "";
    CandidateEnds(Split(pathsStr, ','));
    if env.None? then
      UnsetListHasNoCandidates();
      NonEmpty(TrimAll(Split(pathsStr, ',')))
    else
      NonEmpty(TrimAll(Split(pathsStr, ',')))
  }

  /** `getPublicObjectSearchPaths`: the candidates without repeats, or an error when none is left. */
  function SearchPaths(env: Option<string>): (r: Result<seq<string>, string>)
    ensures r.Err? <==> SearchPathCandidates(env) == []
    ensures r.Err? ==> r.error == SearchPathsMessage
    ensures r.Ok? ==> r.value == Dedupe(SearchPathCandidates(env)) && |r.value| >= 1 && Distinct(r.value)
  {
    var paths := Dedupe(SearchPathCandidates(env));
    DedupeDistinct(SearchPathCandidates(env));
    assert SearchPathCandidates(env) != [] ==> SearchPathCandidates(env)[0] in paths;
    if |paths| == 0 then Err(SearchPathsMessage) else Ok(paths)
  }

  /** A value is among the trimmed pieces exactly when some piece trims to it. */
  lemma TrimAllMembers(parts: seq<string>, x: string)
    ensures x in TrimAll(parts) <==> exists piece :: piece in parts && Trim(piece) == x
  {
    var trimmed := TrimAll(parts);
    if x in trimmed {
      var i :| 0 <= i < |trimmed| && trimmed[i] == x;
      assert parts[i] in parts && Trim(parts[i]) == x;
    }
    if exists piece :: piece in parts && Trim(piece) == x {
      var piece :| piece in parts && Trim(piece) == x;
      var i :| 0 <= i < |parts| && parts[i] == piece;
      assert trimmed[i] == x;
    }
  }

  /** Every search path is a non-empty, trimmed piece of the list, and every such piece is
      a search path. */
  lemma SearchPathsAreTrimmedPieces(env: Option<string>, x: string)
    requires SearchPaths(env).Ok?
    ensures var pathsStr := if env.Some? then env.value else "";
      x in SearchPaths(env).value <==> x != [] && exists piece :: piece in Split(pathsStr, ',') && Trim(piece) == x
  {
    var pathsStr := if env.Some? then env.value else "";
    TrimAllMembers(Split(pathsStr, ','), x);
    assert x in SearchPaths(env).value <==> x in TrimAll(Split(pathsStr, ',')) && x != [];
  }

  /** An unset variable is an error. */
  lemma UnsetSearchPathsFail()
    ensures SearchPaths(None).Err?
  {
    assert Split("", ',') == [""];
    assert Trim("") == "";
  }

  // ---------------------------------------------------------------------------
  // getPrivateObjectDir

  const PrivateDirMessage: string := "PRIVATE_OBJECT_DIR not set. Create a bucket in 'Object Storage' "
    + "tool and set PRIVATE_OBJECT_DIR env var."

  /** `getPrivateObjectDir`: the variable's value, an error when it is unset or empty. */
  function PrivateObjectDir(env: Option<string>): (r: Result<string, string>)
    ensures r.Ok? <==> env.Some? && env.value != []
    ensures r.Ok? ==> r.value == env.value
    ensures r.Err? ==> r.error == PrivateDirMessage
  {
    if env.Some? && env.value != [] then Ok(env.value) else Err(PrivateDirMessage)
  }

  /** The directory with one trailing `/` ensured. */
  function WithTrailingSlash(dir: string): (d: string)
    ensures EndsWith(d, "/") && StartsWith(d, dir)
    ensures EndsWith(dir, "/") ==> d == dir
    ensures !EndsWith(dir, "/") ==> d == dir + "/"
  {
    if EndsWith(dir, "/") then dir
    else
      StartsWithConcat(dir, "/");
      assert (dir + "/")[|dir|..] == "/";
      dir + "/"
  }

  // ---------------------------------------------------------------------------
  // getObjectEntityFile

  const ObjectsPrefix: string := "/objects/"

  datatype EntityError = ObjectNotFound | DirectoryNotSet(message: string) | InvalidPath(message: string)

  /** The entity path `getObjectEntityFile` computes: the private directory with a trailing `/`,
      followed by the segments after `objects`, re-joined with `/`. */
  function EntityPath(objectPath: string, dirEnv: Option<string>): (r: Result<string, EntityError>)
    ensures r.Err? && r.error == ObjectNotFound <==> !StartsWith(objectPath, ObjectsPrefix)
    ensures r.Ok? <==> StartsWith(objectPath, ObjectsPrefix) && PrivateObjectDir(dirEnv).Ok?
  {
    if !StartsWith(objectPath, ObjectsPrefix) then Err(ObjectNotFound)
    else
      var parts := Split(objectPath[1..], '/');
      assert objectPath[1..] == "objects" + ['/'] + objectPath[|ObjectsPrefix|..];
      SplitAfterPrefix("objects", objectPath[|ObjectsPrefix|..], '/');
      if |parts| < 2 then Err(ObjectNotFound)
      else
        var entityId := Join(parts[1..], "/");
        match PrivateObjectDir(dirEnv)
        case Err(m) => Err(DirectoryNotSet(m))
        case Ok(dir) => Ok(WithTrailingSlash(dir) + entityId)
  }

  /** For an `/objects/` path the entity path is the directory, a `/`, and the text after the prefix. */
  lemma EntityPathOfObjectPath(id: string, dir: string)
    requires dir != []
    ensures EntityPath(ObjectsPrefix + id, Some(dir)) == Ok(WithTrailingSlash(dir) + id)
  {
    var objectPath := ObjectsPrefix + id;
    StartsWithConcat(ObjectsPrefix, id);
    assert objectPath[1..] == "objects" + ['/'] + id;
    SplitAfterPrefix("objects", id, '/');
    var parts := Split(objectPath[1..], '/');
    assert parts[1..] == Split(id, '/');
    JoinSplit(id, '/');
  }

  /** The bucket and object the entity path names, as `getObjectEntityFile` looks them up. */
  function EntityLocation(objectPath: string, dirEnv: Option<string>): (r: Result<ObjectLocation, EntityError>)
    ensures r.Ok? ==> EntityPath(objectPath, dirEnv).Ok? && ParseObjectPath(EntityPath(objectPath, dirEnv).value) == Ok(r.value)
    ensures EntityPath(objectPath, dirEnv).Err? ==> r == Err(EntityPath(objectPath, dirEnv).error)
  {
    match EntityPath(objectPath, dirEnv)
    case Err(e) => Err(e)
    case Ok(p) =>
      match ParseObjectPath(p)
      case Err(m) => Err(InvalidPath(m))
      case Ok(loc) => Ok(loc)
  }

  /** A directory `/bucket/prefix` gets its trailing `/` from its prefix. */
  lemma TrailingSlashOfDirectory(bucketName: string, prefix: string)
    requires prefix != []
    ensures WithTrailingSlash("/" + bucketName + "/" + prefix) == "/" + bucketName + "/" + WithTrailingSlash(prefix)
  {
    var dir := "/" + bucketName + "/" + prefix;
    assert dir[|dir| - 1..] == prefix[|prefix| - 1..];
  }

  /** With the directory `/bucket/prefix`, the object lands in that bucket under that prefix. */
  lemma EntityLocationUnderDirectory(bucketName: string, prefix: string, id: string)
    requires '/' !in bucketName && prefix != []
    ensures EntityLocation(ObjectsPrefix + id, Some("/" + bucketName + "/" + prefix))
            == Ok(ObjectLocation(bucketName, WithTrailingSlash(prefix) + id))
  {
    var dir := "/" + bucketName + "/" + prefix;
    EntityPathOfObjectPath(id, dir);
    TrailingSlashOfDirectory(bucketName, prefix);
    assert "/" + bucketName + "/" + WithTrailingSlash(prefix) + id == "/" + bucketName + "/" + (WithTrailingSlash(prefix) + id);
    ParsePathOfLocation(bucketName, WithTrailingSlash(prefix) + id);
  }

  // ---------------------------------------------------------------------------
  // normalizeObjectEntityPath

  const StoragePrefix: string := "https://storage.googleapis.com/"

  /** `normalizeObjectEntityPath`, with `pathname` the pathname of `new URL(rawPath)`: a storage
      URL under the private directory becomes `/objects/<id>`, any other storage URL its
      pathname, and anything else is returned as is. */
  function NormalizeObjectEntityPath(rawPath: string, pathname: string, dirEnv: Option<string>): (r: Result<string, string>)
    ensures !StartsWith(rawPath, StoragePrefix) ==> r == Ok(rawPath)
    ensures r.Err? <==> StartsWith(rawPath, StoragePrefix) && PrivateObjectDir(dirEnv).Err?
    ensures r.Ok? && StartsWith(rawPath, StoragePrefix) ==>
              var d := WithTrailingSlash(dirEnv.value);
              if StartsWith(pathname, d) then r.value == ObjectsPrefix + pathname[|d|..] else r.value == pathname
  {
    if !StartsWith(rawPath, StoragePrefix) then Ok(rawPath)
    else
      match PrivateObjectDir(dirEnv)
      case Err(m) => Err(m)
      case Ok(dir) =>
        var objectEntityDir := WithTrailingSlash(dir);
        if !StartsWith(pathname, objectEntityDir) then Ok(pathname)
        else Ok(ObjectsPrefix + pathname[|objectEntityDir|..])
  }

  /** A storage URL whose pathname lies under the private directory normalises to
      `/objects/<id>`, and the entity path of that is the pathname again. */
  lemma NormalizeThenResolve(rawPath: string, dir: string, id: string)
    requires StartsWith(rawPath, StoragePrefix) && dir != []
    ensures NormalizeObjectEntityPath(rawPath, WithTrailingSlash(dir) + id, Some(dir)) == Ok(ObjectsPrefix + id)
    ensures EntityPath(ObjectsPrefix + id, Some(dir)) == Ok(WithTrailingSlash(dir) + id)
  {
    var d := WithTrailingSlash(dir);
    StartsWithConcat(d, id);
    assert (d + id)[|d|..] == id;
    EntityPathOfObjectPath(id, dir);
  }

  /** Resolving and then normalising an `/objects/` path gives it back. */
  lemma ResolveThenNormalize(rawPath: string, dir: string, id: string)
    requires StartsWith(rawPath, StoragePrefix) && dir != []
    ensures var p := EntityPath(ObjectsPrefix + id, Some(dir));
      p.Ok? && NormalizeObjectEntityPath(rawPath, p.value, Some(dir)) == Ok(ObjectsPrefix + id)
  {
    NormalizeThenResolve(rawPath, dir, id);
  }

  // ---------------------------------------------------------------------------
  // getFileExtension and isImageOrVideo

  const KnownContentTypes: seq<string> := [
    "image/gif", "image/png", "image/jpeg", "image/jpg", "video/mp4", "video/webm",
    "audio/mpeg", "audio/wav", "application/json", "text/csv"]

  /** `getFileExtension`: the extension of a known content type, `''` for a missing or unknown one. */
  function GetFileExtension(contentType: Option<string>): (ext: string)
    ensures ext == "" <==> contentType.None? || contentType.value !in KnownContentTypes
    ensures ext == ".jpg" <==> contentType == Some("image/jpeg") || contentType == Some("image/jpg")
    ensures ext != "" ==> ext[0] == '.'
  {
    match contentType
    case None => ""
    case Some(t) =>
      if t == "image/gif" then ".gif"
      else if t == "image/png" then ".png"
      else if t == "image/jpeg" || t == "image/jpg" then ".jpg"
      else if t == "video/mp4" then ".mp4"
      else if t == "video/webm" then ".webm"
      else if t == "audio/mpeg" then ".mp3"
      else if t == "audio/wav" then ".wav"
      else if t == "application/json" then ".json"
      else if t == "text/csv" then ".csv"
      else ""
  }

  /** `isImageOrVideo`: a present type starting with `image/` or `video/`. */
  function IsImageOrVideo(contentType: Option<string>): (b: bool)
    ensures b <==> contentType.Some? && (StartsWith(contentType.value, "image/") || StartsWith(contentType.value, "video/"))
  {
    contentType.Some? && (StartsWith(contentType.value, "image/") || StartsWith(contentType.value, "video/"))
  }

  /** Of the known types, exactly the image and video ones, those with extension .gif, .png,
      .jpg, .mp4 or .webm, count as images or videos. */
  lemma MediaTypesHaveMediaExtensions(t: string)
    requires t in KnownContentTypes
    ensures IsImageOrVideo(Some(t)) <==> GetFileExtension(Some(t)) in [".gif", ".png", ".jpg", ".mp4", ".webm"]
  {
    if t[0] == 'i' {
      assert t[..6] == "image/";
    } else if t[0] == 'v' {
      assert t[..6] == "video/";
    } else {
      FirstCharRulesOut(t, "image/");
      FirstCharRulesOut(t, "video/");
    }
  }
}
