/** The Vercel Blob variant of the storage module. Its filename sanitising, key layout,
    content-type table and key validation are the same as in `Storage` and are used from there;
    what differs is the upload, which copies the bytes into a fresh buffer first, the delete,
    which removes every blob at the key and never complains that none was there, and the
    signed URL, which always goes through the blob listing. */
module StorageVercel {
  import opened Wrappers
  import opened Seqs
  import opened Storage

  /** `uploadFileVercel`: the argument check and key, a copy of the bytes, then a put with the
      content type of the original filename. `url` is the address the service assigns. */
  method UploadFileVercel(store: BlobStore, file: array<bv8>, tenantId: string, moduleName: string,
                          entityId: string, filename: string, url: string)
    returns (r: Result<string, string>)
    modifies store
    ensures r == UploadKey(tenantId, moduleName, entityId, filename)
    ensures r.Failure? ==> store.blobs == old(store.blobs)
    ensures r.Success? ==>
      store.blobs == old(store.blobs) + [Blob(r.value, url, file[..], ContentType(filename))]
  {
    r := UploadKey(tenantId, moduleName, entityId, filename);
    if r.Failure? {
      return;
    }
    var buffer := CopyBytes(file);
    store.Put(r.value, url, buffer[..], ContentType(filename));
  }

  /** `new Uint8Array(file)` followed by `buffer.slice(...)`: a fresh buffer holding the same
      bytes. */
  method CopyBytes(file: array<bv8>) returns (buffer: array<bv8>)
    ensures fresh(buffer)
    ensures buffer[..] == file[..]
  {
    buffer := new bv8[file.Length];
    for i := 0 to file.Length
      invariant buffer[..i] == file[..i]
    {
      buffer[i] := file[i];
      assert buffer[..i + 1] == buffer[..i] + [buffer[i]];
      assert file[..i + 1] == file[..i] + [file[i]];
    }
    assert buffer[..] == buffer[..file.Length];
    assert file[..] == file[..file.Length];
  }

  /** The URLs of the listed blobs whose path is exactly `key`. */
  function MatchingUrls(listed: seq<Blob>, key: string): set<string>
  {
    set b | b in listed && b.pathname == key :: b.url
  }

  function UrlNotIn(urls: set<string>): Blob -> bool
  {
    (b: Blob) => b.url !in urls
  }

  /** The store after deleting the blobs at `key`: every blob sharing a URL with a listed blob
      whose path is the key is gone. */
  function AfterDelete(blobs: seq<Blob>, key: string): seq<Blob>
  {
    Filter(blobs, UrlNotIn(MatchingUrls(Listed(blobs, key), key)))
  }

  /** `deleteFileVercel`: every listed blob whose path is the key is deleted, in listing order;
      when none matches the call still succeeds. */
  method DeleteFileVercel(store: BlobStore, key: string) returns (r: Result<(), string>)
    modifies store
    ensures key == "" ==> r == Failure(MissingKeyForDelete) && store.blobs == old(store.blobs)
    ensures key != "" ==> r.Success? && store.blobs == AfterDelete(old(store.blobs), key)
  {
    if key == "" {
      return Failure(MissingKeyForDelete);
    }
    ghost var start := store.blobs;
    var listed := Listed(store.blobs, key);
    assert MatchingUrls(listed[..0], key) == {};
    AllKept(start, UrlNotIn({}));
    for i := 0 to |listed|
      invariant store.blobs == Filter(start, UrlNotIn(MatchingUrls(listed[..i], key)))
    {
      DeleteStep(start, listed, i, key);
      if listed[i].pathname == key {
        store.Del(listed[i].url);
      }
    }
    assert listed[..|listed|] == listed;
    r := Success(());
  }

  /** One iteration of the delete loop: a matching blob adds its URL to the deleted ones, any
      other blob changes nothing. */
  lemma DeleteStep(start: seq<Blob>, listed: seq<Blob>, i: nat, key: string)
    requires i < |listed|
    ensures listed[i].pathname == key ==>
      Filter(Filter(start, UrlNotIn(MatchingUrls(listed[..i], key))), UrlIsNot(listed[i].url))
        == Filter(start, UrlNotIn(MatchingUrls(listed[..i + 1], key)))
    ensures listed[i].pathname != key ==>
      MatchingUrls(listed[..i + 1], key) == MatchingUrls(listed[..i], key)
  {
    var b := listed[i];
    TakeStep(listed, i);
    var before := MatchingUrls(listed[..i], key);
    if b.pathname == key {
      assert MatchingUrls(listed[..i + 1], key) == before + {b.url};
      FilterFilter(start, UrlNotIn(before), UrlIsNot(b.url), UrlNotIn(before + {b.url}));
    }
  }

  /** After the delete no blob is left at the key; a blob elsewhere stays unless it shares its
      URL with a deleted one; and when nothing is at the key the store is unchanged. */
  lemma DeleteRemovesKey(blobs: seq<Blob>, key: string)
    ensures forall i :: 0 <= i < |AfterDelete(blobs, key)| ==> AfterDelete(blobs, key)[i].pathname != key
    ensures forall b :: b in blobs && b.url !in MatchingUrls(Listed(blobs, key), key) ==>
      b in AfterDelete(blobs, key)
    ensures (forall i :: 0 <= i < |blobs| ==> blobs[i].pathname != key) ==>
      AfterDelete(blobs, key) == blobs
  {
    var urls := MatchingUrls(Listed(blobs, key), key);
    var after := AfterDelete(blobs, key);
    forall i | 0 <= i < |after| ensures after[i].pathname != key {
      var b := after[i];
      assert b in blobs && b.url !in urls;
      if b.pathname == key {
        ExactPathListed(blobs, key, b);
        assert false;
      }
    }
    if forall i :: 0 <= i < |blobs| ==> blobs[i].pathname != key {
      assert urls == {};
      AllKept(blobs, UrlNotIn(urls));
    }
  }

  /** `getSignedUrlVercel`: the URL of the first listed blob whose path is the key. */
  function SignedUrlVercel(blobs: seq<Blob>, key: string): (r: Result<string, string>)
    ensures r == SignedUrlIntended(blobs, key, VercelBlob, "")
  {
    if key == "" then Failure(MissingKeyForUrl)
    else
      match FirstWithPath(Listed(blobs, key), key)
      case None => Failure("Blob not found: " + key)
      case Some(b) => Success(b.url)
  }
}
