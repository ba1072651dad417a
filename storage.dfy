/** File storage helpers: filename sanitising, storage-key construction and validation,
    content-type lookup, and the upload / delete / signed-URL operations over a blob store
    reached either through the Vercel Blob API or through an S3 bucket. The store itself is an
    abstract sequence of blobs; the service calls become small methods on it. */
module Storage {
  import opened Wrappers
  import opened Seqs
  import opened Text

  // ---------------------------------------------------------------------------------------
  // Filenames and keys
  // ---------------------------------------------------------------------------------------

  /** The characters the pattern `[a-zA-Z0-9._-]` accepts. */
  predicate SafeChar(c: char)
  {
    IsLowerLetter(c) || IsUpperLetter(c) || IsDigit(c) || c == '.' || c == '_' || c == '-'
  }

  function SanitizeChar(c: char): char
  {
    if SafeChar(c) then c else '_'
  }

  /** `filename.replace(/[^a-zA-Z0-9._-]/g, '_')`. */
  function Sanitize(name: string): (r: string)
  {
    if name == [] then [] else [SanitizeChar(name[0])] + Sanitize(name[1..])
  }

  /** Sanitising keeps the length, keeps every accepted character in place and turns every
      other one into `_`; so the result holds only accepted characters, in particular no `/`. */
  lemma {:induction false} SanitizeShape(name: string)
    ensures |Sanitize(name)| == |name|
    ensures forall i :: 0 <= i < |name| ==>
      (SafeChar(name[i]) ==> Sanitize(name)[i] == name[i]) &&
      (!SafeChar(name[i]) ==> Sanitize(name)[i] == '_')
    ensures forall i :: 0 <= i < |name| ==> SafeChar(Sanitize(name)[i])
    ensures '/' !in Sanitize(name)
  {
    if name != [] {
      SanitizeShape(name[1..]);
      var r := Sanitize(name);
      assert r == [SanitizeChar(name[0])] + Sanitize(name[1..]);
      forall i | 0 < i < |name| ensures r[i] == Sanitize(name[1..])[i - 1] {
      }
    }
  }

  /** A name made of accepted characters is left as it is; hence sanitising is idempotent. */
  lemma {:induction false} SanitizeKeepsSafe(name: string)
    requires forall i :: 0 <= i < |name| ==> SafeChar(name[i])
    ensures Sanitize(name) == name
  {
    if name != [] {
      SanitizeKeepsSafe(name[1..]);
      assert name == [name[0]] + name[1..];
    }
  }

  lemma SanitizeIdempotent(name: string)
    ensures Sanitize(Sanitize(name)) == Sanitize(name)
  {
    SanitizeShape(name);
    SanitizeKeepsSafe(Sanitize(name));
  }

  const MissingUploadArgument := "All parameters are required for file upload"
  const MissingKeyForDelete := "Storage key is required for file deletion"
  const MissingKeyForUrl := "Storage key is required for signed URL generation"

  /** The first step of an upload: the argument check, then the key
      `tenantId/module/entityId/sanitizedFilename`. */
  function UploadKey(tenantId: string, moduleName: string, entityId: string, filename: string)
    : Result<string, string>
  {
    if tenantId == "" || moduleName == "" || entityId == "" || filename == "" then
      Failure(MissingUploadArgument)
    else
      Success(tenantId + "/" + moduleName + "/" + entityId + "/" + Sanitize(filename))
  }

  /** `validateStorageKey`: at least four `/`-separated parts, none of them empty. */
  predicate ValidStorageKey(key: string)
  {
    var parts := Split(key, '/');
    |parts| >= 4 && forall i :: 0 <= i < |parts| ==> parts[i] != ""
  }

  /** The upload fails exactly when an argument is empty, and otherwise the key splits back
      into the tenant id, the module, the entity id and the sanitised filename when the first
      three hold no `/`: such a key is valid. */
  lemma UploadKeyParts(tenantId: string, moduleName: string, entityId: string, filename: string)
    ensures UploadKey(tenantId, moduleName, entityId, filename).Failure? <==>
      tenantId == "" || moduleName == "" || entityId == "" || filename == ""
    ensures (UploadKey(tenantId, moduleName, entityId, filename).Success? &&
             '/' !in tenantId && '/' !in moduleName && '/' !in entityId) ==>
        Split(UploadKey(tenantId, moduleName, entityId, filename).value, '/')
          == [tenantId, moduleName, entityId, Sanitize(filename)]
        && ValidStorageKey(UploadKey(tenantId, moduleName, entityId, filename).value)
  {
    var k := UploadKey(tenantId, moduleName, entityId, filename);
    if k.Success? && '/' !in tenantId && '/' !in moduleName && '/' !in entityId {
      SanitizeShape(filename);
      KeySplits(tenantId, moduleName, entityId, Sanitize(filename));
    }
  }

  /** Four slash-free parts joined by `/` split back into themselves. */
  lemma KeySplits(a: string, b: string, c: string, d: string)
    requires '/' !in a && '/' !in b && '/' !in c && '/' !in d
    ensures Split(a + "/" + b + "/" + c + "/" + d, '/') == [a, b, c, d]
  {
    var cd := c + "/" + d;
    var bcd := b + "/" + cd;
    SplitWhole(d, '/');
    SplitAt(cd, c, d, '/');
    SplitAt(bcd, b, cd, '/');
    JoinedKey(a, b, c, d, a + "/" + bcd);
    SplitAt(a + "/" + bcd, a, bcd, '/');
  }

  lemma JoinedKey(a: string, b: string, c: string, d: string, key: string)
    requires key == a + "/" + (b + "/" + (c + "/" + d))
    ensures key == a + "/" + b + "/" + c + "/" + d
  {
  }

  /** A string without the separator is a single part. */
  lemma SplitWhole(p: string, sep: char)
    requires sep !in p
    ensures Split(p, sep) == [p]
  {
    SplitPrefix(p, "", sep);
    assert p + "" == p;
  }

  /** `SplitCons` for a string given whole. */
  lemma SplitAt(s: string, p: string, tail: string, sep: char)
    requires sep !in p && s == p + [sep] + tail
    ensures Split(s, sep) == [p] + Split(tail, sep)
  {
    SplitCons(p, tail, sep);
  }

  /** A key with a leading `/` has an empty first part, and the empty key has a single empty
      part: neither is valid. */
  lemma LeadingSlashInvalid(rest: string)
    ensures !ValidStorageKey("/" + rest)
    ensures !ValidStorageKey("")
  {
    assert ("/" + rest)[1..] == rest;
    assert Split("/" + rest, '/')[0] == "";
  }

  // ---------------------------------------------------------------------------------------
  // Content types
  // ---------------------------------------------------------------------------------------

  const OctetStream := "application/octet-stream"

  /** The extension-to-type table, in declaration order. */
  const ContentTypes: seq<(string, string)> := [
    ("pdf", "application/pdf"),
    ("doc", "application/msword"),
    ("docx", "application/vnd.openxmlformats-officedocument.wordprocessingml.document"),
    ("xls", "application/vnd.ms-excel"),
    ("xlsx", "application/vnd.openxmlformats-officedocument.spreadsheetml.sheet"),
    ("png", "image/png"),
    ("jpg", "image/jpeg"),
    ("jpeg", "image/jpeg"),
    ("gif", "image/gif")
  ]

  /** The value stored under `key` in a table of pairs, if any. */
  function Lookup(table: seq<(string, string)>, key: string): (r: Option<string>)
    ensures r.Some? ==> exists i :: 0 <= i < |table| && table[i] == (key, r.value)
    ensures r.None? <==> forall i :: 0 <= i < |table| ==> table[i].0 != key
  {
    if table == [] then None
    else if table[0].0 == key then Some(table[0].1)
    else
      var r := Lookup(table[1..], key);
      assert forall i :: 0 < i < |table| ==> table[i] == table[1..][i - 1];
      r
  }

  /** `filename.split('.').pop().toLowerCase()`: the lower-cased text after the last dot, or
      the whole lower-cased name when there is no dot. */
  function Extension(filename: string): string
  {
    var parts := Split(filename, '.');
    Lower(parts[|parts| - 1])
  }

  /** `getContentType`. */
  function ContentType(filename: string): (r: string)
    ensures r == OctetStream ||
      exists i :: 0 <= i < |ContentTypes| && ContentTypes[i] == (Extension(filename), r)
  {
    match Lookup(ContentTypes, Extension(filename))
    case Some(t) => t
    case None => OctetStream
  }

  /** The last `sep`-separated part of `s + [sep] + ext`, when `ext` has no separator, is
      `ext`; and there are at least two parts. */
  lemma {:induction false} SplitLastPart(s: string, ext: string, sep: char)
    requires sep !in ext
    ensures |Split(s + [sep] + ext, sep)| >= 2
    ensures Split(s + [sep] + ext, sep)[|Split(s + [sep] + ext, sep)| - 1] == ext
  {
    var whole := s + [sep] + ext;
    if s == [] {
      assert whole == [sep] + ext;
      assert whole[1..] == ext;
      SplitPrefix(ext, "", sep);
      assert ext + "" == ext;
    } else {
      SplitLastPart(s[1..], ext, sep);
      assert whole[1..] == s[1..] + [sep] + ext;
      assert whole[0] == s[0];
    }
  }

  /** A name `base.ext` whose extension has no dot is typed by the lower-cased extension. */
  lemma ContentTypeOfExtension(base: string, ext: string)
    requires '.' !in ext
    ensures Extension(base + "." + ext) == Lower(ext)
  {
    SplitLastPart(base, ext, '.');
  }

  /** A name without a dot is looked up whole. */
  lemma ContentTypeWithoutDot(name: string)
    requires '.' !in name
    ensures Extension(name) == Lower(name)
  {
    SplitPrefix(name, "", '.');
    assert name + "" == name;
  }

  lemma LowerPdf()
    ensures Lower("PDF") == "pdf"
  {
    assert Lower("PDF")[0] == 'p';
    assert Lower("PDF")[1] == 'd';
    assert Lower("PDF")[2] == 'f';
  }

  /** The extension is matched case-insensitively: `report.PDF` is a PDF. */
  lemma UpperCaseExtensionExample()
    ensures ContentType("report.PDF") == "application/pdf"
  {
    ContentTypeOfExtension("report", "PDF");
    assert "report" + "." + "PDF" == "report.PDF";
    LowerPdf();
  }

  /** `.txt` is not in the table: a text file is stored as an octet stream. */
  lemma TextFileExample()
    ensures ContentType("notes.txt") == OctetStream
  {
    ContentTypeOfExtension("notes", "txt");
    assert "notes" + "." + "txt" == "notes.txt";
    assert Lower("txt") == "txt";
    TxtNotInTable();
  }

  /** `txt` is not one of the table's keys. */
  lemma TxtNotInTable()
    ensures Lookup(ContentTypes, "txt") == None
  {
    forall i | 0 <= i < |ContentTypes| ensures ContentTypes[i].0 != "txt" {
      assert ContentTypes[i].0[0] != 't';
    }
  }

  /** A trailing dot leaves an empty extension, which is not in the table either. */
  lemma EmptyExtensionExample()
    ensures ContentType("archive.") == OctetStream
  {
    ContentTypeOfExtension("archive", "");
    assert "archive" + "." + "" == "archive.";
  }

  // ---------------------------------------------------------------------------------------
  // The blob store
  // ---------------------------------------------------------------------------------------

  /** A stored object: its path (the storage key), the URL the service gave it, its bytes and
      its content type. */
  datatype Blob = Blob(pathname: string, url: string, bytes: seq<bv8>, contentType: string)

  function HasPrefix(prefix: string): Blob -> bool
  {
    (b: Blob) => StartsWith(b.pathname, prefix)
  }

  function UrlIsNot(url: string): Blob -> bool
  {
    (b: Blob) => b.url != url
  }

  function PathIsNot(path: string): Blob -> bool
  {
    (b: Blob) => b.pathname != path
  }

  /** `list({ prefix })`: the stored blobs whose path starts with `prefix`, in store order. */
  function Listed(blobs: seq<Blob>, prefix: string): seq<Blob>
  {
    Filter(blobs, HasPrefix(prefix))
  }

  /** The first blob of a listing whose path is exactly `path` (`blobs.find`). */
  function FirstWithPath(bs: seq<Blob>, path: string): (r: Option<Blob>)
    ensures r.Some? ==> r.value in bs && r.value.pathname == path
    ensures r.None? <==> forall i :: 0 <= i < |bs| ==> bs[i].pathname != path
  {
    if bs == [] then None
    else if bs[0].pathname == path then Some(bs[0])
    else
      var r := FirstWithPath(bs[1..], path);
      assert forall i :: 0 < i < |bs| ==> bs[i] == bs[1..][i - 1];
      r
  }

  /** A blob whose path is exactly `key` is always among those listed under prefix `key`. */
  lemma ExactPathListed(blobs: seq<Blob>, key: string, b: Blob)
    requires b in blobs && b.pathname == key
    ensures b in Listed(blobs, key)
  {
    assert b.pathname[..|key|] == key;
  }

  /** The blob service: the store's contents, changed only through its own calls. */
  class BlobStore {
    var blobs: seq<Blob>

    constructor()
      ensures blobs == []
    {
      blobs := [];
    }

    /** Vercel Blob `put`: adds a blob under a URL chosen by the service. */
    method Put(pathname: string, url: string, bytes: seq<bv8>, contentType: string)
      modifies this
      ensures blobs == old(blobs) + [Blob(pathname, url, bytes, contentType)]
    {
      blobs := blobs + [Blob(pathname, url, bytes, contentType)];
    }

    /** Vercel Blob `del`: removes the blobs at a URL. */
    method Del(url: string)
      modifies this
      ensures blobs == Filter(old(blobs), UrlIsNot(url))
    {
      blobs := Filter(blobs, UrlIsNot(url));
    }

    /** S3 `PutObject`: the object at the key is replaced. */
    method PutObject(key: string, url: string, bytes: seq<bv8>, contentType: string)
      modifies this
      ensures blobs == Filter(old(blobs), PathIsNot(key)) + [Blob(key, url, bytes, contentType)]
    {
      blobs := Filter(blobs, PathIsNot(key)) + [Blob(key, url, bytes, contentType)];
    }

    /** S3 `DeleteObject`: the object at the key, if any, is removed; a missing key is no error. */
    method DeleteObject(key: string)
      modifies this
      ensures blobs == Filter(old(blobs), PathIsNot(key))
    {
      blobs := Filter(blobs, PathIsNot(key));
    }
  }

  /** Which service the module was configured with at load time. */
  datatype Backend = VercelBlob | S3

  /** `uploadFile`: the argument check and key, then a put of the bytes under that key with the
      content type of the original filename. `url` is the address the service assigns. */
  method UploadFile(store: BlobStore, bytes: seq<bv8>, tenantId: string, moduleName: string,
                    entityId: string, filename: string, backend: Backend, url: string)
    returns (r: Result<string, string>)
    modifies store
    ensures r == UploadKey(tenantId, moduleName, entityId, filename)
    ensures r.Failure? ==> store.blobs == old(store.blobs)
    ensures r.Success? && backend == VercelBlob ==>
      store.blobs == old(store.blobs) + [Blob(r.value, url, bytes, ContentType(filename))]
    ensures r.Success? && backend == S3 ==>
      store.blobs == Filter(old(store.blobs), PathIsNot(r.value))
                     + [Blob(r.value, url, bytes, ContentType(filename))]
  {
    r := UploadKey(tenantId, moduleName, entityId, filename);
    if r.Failure? {
      return;
    }
    if backend == VercelBlob {
      store.Put(r.value, url, bytes, ContentType(filename));
    } else {
      store.PutObject(r.value, url, bytes, ContentType(filename));
    }
  }

  /** `deleteFile`. On Vercel Blob: the first listed blob whose path is exactly the key is
      deleted and the call returns; when none is, it fails with "Blob not found". On S3 the
      object at the key is deleted, present or not. */
  method DeleteFile(store: BlobStore, key: string, backend: Backend)
    returns (r: Result<(), string>)
    modifies store
    ensures key == "" ==> r == Failure(MissingKeyForDelete) && store.blobs == old(store.blobs)
    ensures key != "" && backend == S3 ==>
      r.Success? && store.blobs == Filter(old(store.blobs), PathIsNot(key))
    ensures key != "" && backend == VercelBlob ==>
      match FirstWithPath(Listed(old(store.blobs), key), key)
      case None =>
        r == Failure("Blob not found: " + key) && store.blobs == old(store.blobs)
      case Some(b) =>
        r.Success? && store.blobs == Filter(old(store.blobs), UrlIsNot(b.url))
  {
    if key == "" {
      return Failure(MissingKeyForDelete);
    }
    if backend == S3 {
      store.DeleteObject(key);
      return Success(());
    }
    var listed := Listed(store.blobs, key);
    for i := 0 to |listed|
      invariant store.blobs == old(store.blobs)
      invariant FirstWithPath(listed, key) == FirstWithPath(listed[i..], key)
    {
      assert listed[i..][0] == listed[i] && listed[i..][1..] == listed[i + 1..];
      if listed[i].pathname == key {
        store.Del(listed[i].url);
        return Success(());
      }
    }
    assert listed[|listed|..] == [];
    r := Failure("Blob not found: " + key);
  }

  /** The Vercel Blob branch of `getSignedUrl`: the URL of the first listed blob whose path is
      exactly the key, or "Blob not found". */
  function VercelSignedUrl(blobs: seq<Blob>, key: string): (r: Result<string, string>)
    ensures r.Success? <==> exists i :: 0 <= i < |blobs| && blobs[i].pathname == key
    ensures r.Success? ==> exists i :: 0 <= i < |blobs| && blobs[i].pathname == key && blobs[i].url == r.value
    ensures r.Failure? ==> r.error == "Blob not found: " + key
  {
    var listed := Listed(blobs, key);
    var found := FirstWithPath(listed, key);
    assert found.None? ==> forall i :: 0 <= i < |blobs| ==> blobs[i].pathname != key by {
      if found.None? {
        forall i | 0 <= i < |blobs| ensures blobs[i].pathname != key {
          if blobs[i].pathname == key {
            ExactPathListed(blobs, key, blobs[i]);
            assert false;
          }
        }
      }
    }
    match found
    case None =>
      Failure("Blob not found: " + key)
    case Some(b) => Success(b.url)
  }

  /** The error a JavaScript engine raises when its call stack is exhausted. */
  const StackOverflow := "RangeError: Maximum call stack size exceeded"

  /** The S3 branch of `getSignedUrl` as written. Its last line calls `getSignedUrl` again,
      the module's own function rather than the presigner imported as `getS3SignedUrl`, with
      the S3 client in place of the key. The client is truthy and the backend has not changed,
      so the call reaches the same branch again, before any `await`. `frames` is the number of
      calls the engine's stack still holds: the call that finds none raises a RangeError, and
      every `await` above it passes the rejection on. */
  function S3BranchAsWritten(frames: nat): (r: Result<string, string>)
    ensures r == Failure(StackOverflow)
  {
    if frames == 0 then Failure(StackOverflow) else S3BranchAsWritten(frames - 1)
  }

  /** `getSignedUrl` as written: an empty key fails, Vercel Blob looks the key up, and S3
      recurses until the stack runs out. */
  function SignedUrl(blobs: seq<Blob>, key: string, backend: Backend, frames: nat)
    : (r: Result<string, string>)
    ensures key == "" ==> r == Failure(MissingKeyForUrl)
    ensures key != "" && backend == S3 ==> r == Failure(StackOverflow)
    ensures key != "" && backend == VercelBlob ==>
      (r.Success? <==> exists i :: 0 <= i < |blobs| && blobs[i].pathname == key)
    ensures r.Success? ==> backend == VercelBlob
    ensures r.Success? ==>
      exists i :: 0 <= i < |blobs| && blobs[i].pathname == key && blobs[i].url == r.value
  {
    if key == "" then Failure(MissingKeyForUrl)
    else if backend == VercelBlob then VercelSignedUrl(blobs, key)
    else S3BranchAsWritten(frames)
  }

  /** `getSignedUrl` as intended, with the S3 branch calling the presigner: the URL the
      presigner produces for the key is passed in as `presigned`. */
  function SignedUrlIntended(blobs: seq<Blob>, key: string, backend: Backend, presigned: string)
    : (r: Result<string, string>)
    ensures key == "" ==> r == Failure(MissingKeyForUrl)
    ensures key != "" && backend == S3 ==> r == Success(presigned)
    ensures key != "" && backend == VercelBlob ==>
      (r.Success? <==> exists i :: 0 <= i < |blobs| && blobs[i].pathname == key)
    ensures r.Success? && backend == VercelBlob ==>
      exists i :: 0 <= i < |blobs| && blobs[i].pathname == key && blobs[i].url == r.value
  {
    if key == "" then Failure(MissingKeyForUrl)
    else if backend == S3 then Success(presigned)
    else VercelSignedUrl(blobs, key)
  }

  /** On S3 the function as written never yields a URL, however deep the stack, where the
      intended one yields the presigned URL; on Vercel Blob, and for an empty key, the two
      agree. */
  lemma S3NeverSigns(blobs: seq<Blob>, key: string, backend: Backend, frames: nat, presigned: string)
    ensures key != "" && backend == S3 ==>
      SignedUrl(blobs, key, backend, frames).Failure? &&
      SignedUrl(blobs, key, backend, frames) != SignedUrlIntended(blobs, key, backend, presigned)
    ensures key == "" || backend == VercelBlob ==>
      SignedUrl(blobs, key, backend, frames) == SignedUrlIntended(blobs, key, backend, presigned)
  {
  }
}
