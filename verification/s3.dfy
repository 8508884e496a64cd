/**
 * The boto3 S3 client as seen by the mover: each call it makes is recorded
 * as an event in a trace, and whether an upload or a delete raised is left
 * open. Over that trace: the exact shape of what `upload_to_s3` issues
 * (script.py:68-81), and the safety rule that every delete comes after a
 * successful upload of an archive with a member named after the deleted key.
 */
module S3 {
  import opened Sequences

  /** One call on the S3 client; `ok` is false when the call raised. */
  datatype Event =
    | Download(bucket: string, key: string, localPath: string)
    | Upload(bucket: string, key: string, storageClass: string, members: seq<string>, ok: bool)
    | Delete(bucket: string, key: string, ok: bool)

  /** The storage class the archives are uploaded under (script.py:74). */
  const DeepArchive: string := "DEEP_ARCHIVE"

  /**
   * The client: its state is the trace of calls made so far. Network
   * failures are not under the mover's control, so an upload or a delete may
   * succeed or raise on any call. `download_file` is recorded as succeeding:
   * the mover does not catch its exceptions.
   */
  class Client {
    var events: seq<Event>

    constructor ()
      ensures events == []
    {
      events := [];
    }

    method DownloadFile(bucket: string, key: string, localPath: string)
      modifies this
      ensures events == old(events) + [Download(bucket, key, localPath)]
    {
      events := events + [Download(bucket, key, localPath)];
    }

    /** Uploads the archive whose member names are `members`; `ok` is false when the call raised. */
    method UploadFile(members: seq<string>, bucket: string, key: string, storageClass: string)
      returns (ok: bool)
      modifies this
      ensures events == old(events) + [Upload(bucket, key, storageClass, members, ok)]
    {
      ok :| true;
      events := events + [Upload(bucket, key, storageClass, members, ok)];
    }

    method DeleteObject(bucket: string, key: string) returns (ok: bool)
      modifies this
      ensures events == old(events) + [Delete(bucket, key, ok)]
    {
      ok :| true;
      events := events + [Delete(bucket, key, ok)];
    }
  }

  /**
   * The deletes of `upload_to_s3`'s loop: one per key, in order, until the
   * first one that raises, after which no further delete is attempted.
   */
  predicate DeleteRun(ev: seq<Event>, bucket: string, keys: seq<string>)
    decreases |keys|
  {
    if keys == [] then ev == []
    else
      && ev != []
      && ev[0].Delete? && ev[0].bucket == bucket && ev[0].key == keys[0]
      && (if ev[0].ok then DeleteRun(ev[1..], bucket, keys[1..]) else |ev| == 1)
  }

  /**
   * Everything `upload_to_s3` issues: the upload, then, only if it returned
   * normally, the deletes of `keys`.
   */
  predicate UploadRun(ev: seq<Event>, bucket: string, key: string, members: seq<string>, keys: seq<string>)
  {
    && ev != []
    && ev[0].Upload? && ev[0].bucket == bucket && ev[0].key == key
    && ev[0].storageClass == DeepArchive && ev[0].members == members
    && (if ev[0].ok then DeleteRun(ev[1..], bucket, keys) else |ev| == 1)
  }

  lemma UploadRunIntro(before: seq<Event>, after: seq<Event>, upload: Event, deletes: seq<Event>, keys: seq<string>)
    requires upload.Upload? && upload.storageClass == DeepArchive
    requires after == before + [upload] + deletes
    requires if upload.ok then DeleteRun(deletes, upload.bucket, keys) else deletes == []
    ensures |before| < |after| && after[..|before|] == before
    ensures UploadRun(after[|before|..], upload.bucket, upload.key, upload.members, keys)
  {
    assert after[|before|..] == [upload] + deletes;
    assert (after[|before|..])[1..] == deletes;
  }

  /**
   * A delete run attempts the keys in order, all but its last attempt
   * succeeded, and it stops short of the end only after an attempt that raised.
   */
  lemma {:induction false} DeleteRunAttemptsInOrder(ev: seq<Event>, bucket: string, keys: seq<string>)
    requires DeleteRun(ev, bucket, keys)
    ensures |ev| <= |keys|
    ensures forall i :: 0 <= i < |ev| ==> ev[i].Delete? && ev[i].bucket == bucket && ev[i].key == keys[i]
    ensures forall i :: 0 <= i < |ev| - 1 ==> ev[i].ok
    ensures |ev| < |keys| ==> !ev[|ev| - 1].ok
    decreases |keys|
  {
    if keys != [] && ev[0].ok {
      DeleteRunAttemptsInOrder(ev[1..], bucket, keys[1..]);
      assert forall i :: 0 < i < |ev| ==> ev[i] == ev[1..][i - 1];
    }
  }

  /** The trace of successful deletes of the first `i` keys, in order. */
  predicate DeletedPrefix(ev: seq<Event>, bucket: string, keys: seq<string>, i: nat)
  {
    i <= |keys| && |ev| == i && forall j :: 0 <= j < i ==> ev[j] == Delete(bucket, keys[j], true)
  }

  /**
   * The two ways the delete loop can end: every key deleted, or the deletes of
   * a prefix followed by one that raised.
   */
  lemma {:induction false} DeleteRunEnds(ev: seq<Event>, bucket: string, keys: seq<string>, i: nat, tail: seq<Event>)
    requires DeletedPrefix(ev, bucket, keys, i)
    requires (i == |keys| && tail == []) || (i < |keys| && tail == [Delete(bucket, keys[i], false)])
    ensures DeleteRun(ev + tail, bucket, keys)
    decreases i
  {
    if i == 0 {
      assert ev + tail == tail;
    } else {
      assert (ev + tail)[0] == Delete(bucket, keys[0], true);
      assert (ev + tail)[1..] == ev[1..] + tail;
      assert DeletedPrefix(ev[1..], bucket, keys[1..], i - 1) by {
        forall j | 0 <= j < i - 1
          ensures ev[1..][j] == Delete(bucket, keys[1..][j], true)
        {
          assert ev[1..][j] == ev[j + 1];
        }
      }
      DeleteRunEnds(ev[1..], bucket, keys[1..], i - 1, tail);
    }
  }

  /** Every delete in the trace is of one of `keys`. */
  predicate DeletesWithin(ev: seq<Event>, keys: set<string>)
  {
    forall i :: 0 <= i < |ev| && ev[i].Delete? ==> ev[i].key in keys
  }

  lemma DeletesWithinAppend(a: seq<Event>, b: seq<Event>, s: set<string>, t: set<string>)
    requires DeletesWithin(a, s)
    requires DeletesWithin(b, t)
    ensures DeletesWithin(a + b, s + t)
  {
    forall i | 0 <= i < |a + b| && (a + b)[i].Delete?
      ensures (a + b)[i].key in s + t
    {
      if i >= |a| {
        assert (a + b)[i] == b[i - |a|];
      }
    }
  }

  lemma UploadRunDeletesWithin(ev: seq<Event>, bucket: string, key: string, members: seq<string>, keys: seq<string>)
    requires UploadRun(ev, bucket, key, members, keys)
    ensures DeletesWithin(ev, set k | k in keys)
  {
    if ev[0].ok {
      DeleteRunAttemptsInOrder(ev[1..], bucket, keys);
      forall i | 0 < i < |ev|
        ensures ev[i].key in keys
      {
        assert ev[i] == ev[1..][i - 1];
      }
    }
  }

  lemma {:induction false} NoDeletesAuthorized(ev: seq<Event>, sourcePrefix: string, s: set<string>)
    requires forall i :: 0 <= i < |ev| ==> !ev[i].Delete?
    ensures DeletesAuthorized(ev, sourcePrefix, s)
    decreases |ev|
  {
    if ev != [] {
      assert forall i :: 0 <= i < |ev| - 1 ==> ev[1..][i] == ev[i + 1];
      NoDeletesAuthorized(ev[1..], sourcePrefix, if ev[0].Upload? && ev[0].ok then ArchivedKeys(sourcePrefix, ev[0].members) else {});
    }
  }

  /** The keys whose deletion a successful upload of an archive with these member names allows. */
  function ArchivedKeys(sourcePrefix: string, members: seq<string>): set<string>
  {
    set m | m in members :: sourcePrefix + m
  }

  /**
   * Every delete in the trace names a key that is the source prefix followed
   * by a member name of the archive of the last upload before it, that upload
   * returned normally, and only deletes came in between. `deletable` is what the events before `ev` allow.
   */
  predicate DeletesAuthorized(ev: seq<Event>, sourcePrefix: string, deletable: set<string>)
    decreases |ev|
  {
    ev == [] ||
    match ev[0]
    case Download(_, _, _) =>
      DeletesAuthorized(ev[1..], sourcePrefix, {})
    case Upload(_, _, _, members, ok) =>
      DeletesAuthorized(ev[1..], sourcePrefix, if ok then ArchivedKeys(sourcePrefix, members) else {})
    case Delete(_, key, _) =>
      key in deletable && DeletesAuthorized(ev[1..], sourcePrefix, deletable)
  }

  lemma {:induction false} DeletesAuthorizedWiden(ev: seq<Event>, sourcePrefix: string, s: set<string>, t: set<string>)
    requires DeletesAuthorized(ev, sourcePrefix, s)
    requires s <= t
    ensures DeletesAuthorized(ev, sourcePrefix, t)
    decreases |ev|
  {
    if ev != [] && ev[0].Delete? {
      DeletesAuthorizedWiden(ev[1..], sourcePrefix, s, t);
    }
  }

  /** A trace that is safe from a clean start stays safe when appended to any safe trace. */
  lemma {:induction false} DeletesAuthorizedAppend(a: seq<Event>, b: seq<Event>, sourcePrefix: string, s: set<string>)
    requires DeletesAuthorized(a, sourcePrefix, s)
    requires DeletesAuthorized(b, sourcePrefix, {})
    ensures DeletesAuthorized(a + b, sourcePrefix, s)
    decreases |a|
  {
    if a == [] {
      assert a + b == b;
      DeletesAuthorizedWiden(b, sourcePrefix, {}, s);
    } else {
      assert (a + b)[1..] == a[1..] + b;
      match a[0]
      case Download(_, _, _) =>
        DeletesAuthorizedAppend(a[1..], b, sourcePrefix, {});
      case Upload(_, _, _, members, ok) =>
        DeletesAuthorizedAppend(a[1..], b, sourcePrefix, if ok then ArchivedKeys(sourcePrefix, members) else {});
      case Delete(_, _, _) =>
        DeletesAuthorizedAppend(a[1..], b, sourcePrefix, s);
    }
  }

  lemma {:induction false} DeleteRunAuthorized(ev: seq<Event>, bucket: string, keys: seq<string>, sourcePrefix: string, s: set<string>)
    requires DeleteRun(ev, bucket, keys)
    requires forall i :: 0 <= i < |keys| ==> keys[i] in s
    ensures DeletesAuthorized(ev, sourcePrefix, s)
    decreases |keys|
  {
    if keys != [] && ev[0].ok {
      DeleteRunAuthorized(ev[1..], bucket, keys[1..], sourcePrefix, s);
    }
  }

  /**
   * What `upload_to_s3` issues is safe whatever came before it, when the key
   * it deletes for each file is the source prefix followed by that file's
   * name in the uploaded archive (script.py:64, 77).
   */
  lemma UploadRunAuthorized(ev: seq<Event>, bucket: string, key: string, members: seq<string>, keys: seq<string>, sourcePrefix: string)
    requires UploadRun(ev, bucket, key, members, keys)
    requires |keys| == |members|
    requires forall i :: 0 <= i < |keys| ==> keys[i] == sourcePrefix + members[i]
    ensures DeletesAuthorized(ev, sourcePrefix, {})
  {
    if ev[0].ok {
      forall i | 0 <= i < |keys|
        ensures keys[i] in ArchivedKeys(sourcePrefix, members)
      {
        assert members[i] in members;
      }
      DeleteRunAuthorized(ev[1..], bucket, keys, sourcePrefix, ArchivedKeys(sourcePrefix, members));
    }
  }

  /** Every upload in the trace goes to the Deep Archive storage class, under `destinationPrefix`. */
  predicate UploadsUnder(ev: seq<Event>, destinationPrefix: string)
  {
    forall i :: 0 <= i < |ev| && ev[i].Upload? ==>
      && ev[i].storageClass == DeepArchive
      && |destinationPrefix| <= |ev[i].key| && ev[i].key[..|destinationPrefix|] == destinationPrefix
  }

  lemma UploadsUnderAppend(a: seq<Event>, b: seq<Event>, destinationPrefix: string)
    requires UploadsUnder(a, destinationPrefix)
    requires UploadsUnder(b, destinationPrefix)
    ensures UploadsUnder(a + b, destinationPrefix)
  {
    forall i | 0 <= i < |a + b| && i >= |a|
      ensures (a + b)[i] == b[i - |a|]
    {
    }
  }

  /** What `upload_to_s3` issues uploads one archive, under the prefix of its key. */
  lemma UploadRunUnder(ev: seq<Event>, bucket: string, key: string, members: seq<string>, keys: seq<string>, destinationPrefix: string)
    requires UploadRun(ev, bucket, key, members, keys)
    requires |destinationPrefix| <= |key| && key[..|destinationPrefix|] == destinationPrefix
    ensures UploadsUnder(ev, destinationPrefix)
  {
    if ev[0].ok {
      DeleteRunAttemptsInOrder(ev[1..], bucket, keys);
      forall i | 0 < i < |ev|
        ensures ev[i].Delete?
      {
        assert ev[i] == ev[1..][i - 1];
      }
    }
  }

  /** A call that raised: an upload or a delete whose `ok` is false. */
  predicate Raised(e: Event)
  {
    (e.Upload? || e.Delete?) && !e.ok
  }

  predicate NoneRaised(ev: seq<Event>)
  {
    forall i :: 0 <= i < |ev| ==> !Raised(ev[i])
  }

  lemma NoneRaisedAppend(a: seq<Event>, b: seq<Event>)
    ensures NoneRaised(a + b) <==> NoneRaised(a) && NoneRaised(b)
  {
    if NoneRaised(a + b) {
      forall i | 0 <= i < |a|
        ensures !Raised(a[i])
      {
        assert a[i] == (a + b)[i];
      }
      forall i | 0 <= i < |b|
        ensures !Raised(b[i])
      {
        assert b[i] == (a + b)[|a| + i];
      }
    }
  }

  /** The keys of the deletes in the trace, in the order they were attempted. */
  function DeletedKeys(ev: seq<Event>): seq<string>
  {
    if ev == [] then []
    else (if ev[0].Delete? then [ev[0].key] else []) + DeletedKeys(ev[1..])
  }

  lemma {:induction false} DeletedKeysAppend(a: seq<Event>, b: seq<Event>)
    ensures DeletedKeys(a + b) == DeletedKeys(a) + DeletedKeys(b)
    decreases |a|
  {
    if a == [] {
      assert a + b == b;
    } else {
      assert (a + b)[1..] == a[1..] + b;
      DeletedKeysAppend(a[1..], b);
      AppendAssoc(if a[0].Delete? then [a[0].key] else [], DeletedKeys(a[1..]), DeletedKeys(b));
    }
  }

  lemma {:induction false} NoDeletesNoKeys(ev: seq<Event>)
    requires forall i :: 0 <= i < |ev| ==> !ev[i].Delete?
    ensures DeletedKeys(ev) == []
    decreases |ev|
  {
    if ev != [] {
      assert forall i :: 0 <= i < |ev| - 1 ==> ev[1..][i] == ev[i + 1];
      NoDeletesNoKeys(ev[1..]);
    }
  }

  /** A delete loop in which no delete raised deletes every key, once each, in order. */
  lemma {:induction false} DeleteRunComplete(ev: seq<Event>, bucket: string, keys: seq<string>)
    requires DeleteRun(ev, bucket, keys)
    requires NoneRaised(ev)
    ensures DeletedKeys(ev) == keys
    decreases |keys|
  {
    if keys != [] {
      assert !Raised(ev[0]);
      assert ev == [ev[0]] + ev[1..];
      NoneRaisedAppend([ev[0]], ev[1..]);
      DeleteRunComplete(ev[1..], bucket, keys[1..]);
      assert keys == [keys[0]] + keys[1..];
    }
  }

  /**
   * When neither the upload nor any delete of `upload_to_s3` raised, it
   * deletes every key of its list, once each, in order (script.py:76-78).
   */
  lemma UploadRunComplete(ev: seq<Event>, bucket: string, key: string, members: seq<string>, keys: seq<string>)
    requires UploadRun(ev, bucket, key, members, keys)
    requires NoneRaised(ev)
    ensures DeletedKeys(ev) == keys
  {
    assert !Raised(ev[0]);
    assert ev == [ev[0]] + ev[1..];
    NoneRaisedAppend([ev[0]], ev[1..]);
    DeleteRunComplete(ev[1..], bucket, keys);
  }

  /**
   * Safety is kept by every prefix of a safe trace, so a run that a raising
   * `download_file` cuts short is as safe as the run it was a prefix of.
   */
  lemma {:induction false} DeletesAuthorizedPrefix(ev: seq<Event>, sourcePrefix: string, s: set<string>, k: nat)
    requires DeletesAuthorized(ev, sourcePrefix, s)
    requires k <= |ev|
    ensures DeletesAuthorized(ev[..k], sourcePrefix, s)
    decreases k
  {
    if k > 0 {
      assert ev[..k][1..] == ev[1..][..k - 1];
      match ev[0]
      case Download(_, _, _) =>
        DeletesAuthorizedPrefix(ev[1..], sourcePrefix, {}, k - 1);
      case Upload(_, _, _, members, ok) =>
        DeletesAuthorizedPrefix(ev[1..], sourcePrefix, if ok then ArchivedKeys(sourcePrefix, members) else {}, k - 1);
      case Delete(_, _, _) =>
        DeletesAuthorizedPrefix(ev[1..], sourcePrefix, s, k - 1);
    }
  }
}
