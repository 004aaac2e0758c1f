/** `Pass.create` (wallet/Pass.py): the manifest of digests, the openssl
    signature over it and the entries of the `.pkpass` archive. */
module Bundles {
  import opened Wrappers
  import opened Errors
  import opened OrderedMaps
  import opened Values
  import opened PassInfo
  import opened Passes
  import opened PassDocument

  /** `hashlib.sha1(data).hexdigest()` of every file, in insertion order. */
  function Digests(files: OMap<string, Bytes>, sha1: Bytes -> string): OMap<string, string> {
    seq(|files|, i requires 0 <= i < |files| => (files[i].0, sha1(files[i].1)))
  }

  lemma DigestsKeys(files: OMap<string, Bytes>, sha1: Bytes -> string)
    ensures Keys(Digests(files, sha1)) == Keys(files)
  {
    var d := Digests(files, sha1);
    assert |Keys(d)| == |Keys(files)|;
    forall i | 0 <= i < |files|
      ensures Keys(d)[i] == Keys(files)[i]
    {
      assert d[i] == (files[i].0, sha1(files[i].1));
    }
  }

  /** A digest of the map is the digest of the bytes stored under that name. */
  lemma DigestsGet(files: OMap<string, Bytes>, sha1: Bytes -> string, k: string)
    ensures Get(Digests(files, sha1), k)
         == if k in Keys(files) then Some(sha1(Get(files, k).value)) else None
  {
    var d := Digests(files, sha1);
    DigestsKeys(files, sha1);
    if k in Keys(files) {
      var i := IndexOf(files, k);
      assert d[i] == (files[i].0, sha1(files[i].1));
      forall j | 0 <= j < i
        ensures d[j].0 != k
      {
        assert d[j] == (files[j].0, sha1(files[j].1));
      }
      IndexOfIs(d, k, i);
    }
  }

  /** `_create_manifest`: the persistent digest map after one call. The
      document's digest is assigned first, then every file's, so a file
      named `pass.json` overwrites the document's digest. */
  function Manifest(hashes: OMap<string, string>, passJson: Bytes, files: OMap<string, Bytes>,
                    sha1: Bytes -> string): OMap<string, string>
  {
    PutAll(Put(hashes, "pass.json", sha1(passJson)), Digests(files, sha1))
  }

  /** The digest map as the dictionary handed to `json.dumps`. */
  function HashesJson(hashes: OMap<string, string>): Json {
    JObject(seq(|hashes|, i requires 0 <= i < |hashes| => (hashes[i].0, JString(hashes[i].1))))
  }

  /** The dictionary has the digest map's names, in its order. */
  lemma HashesJsonKeys(hashes: OMap<string, string>)
    ensures ObjectKeys(HashesJson(hashes)) == Keys(hashes)
  {
    var m := HashesJson(hashes).members;
    assert |Keys(m)| == |Keys(hashes)|;
    forall i | 0 <= i < |hashes|
      ensures Keys(m)[i] == Keys(hashes)[i]
    {
      assert m[i] == (hashes[i].0, JString(hashes[i].1));
    }
  }

  /** Each name holds its digest as a string, and no other name is present. */
  lemma HashesJsonGet(hashes: OMap<string, string>, k: string)
    ensures Member(HashesJson(hashes), k)
         == if k in Keys(hashes) then Some(JString(Get(hashes, k).value)) else None
  {
    var m := HashesJson(hashes).members;
    HashesJsonKeys(hashes);
    if k in Keys(hashes) {
      var i := IndexOf(hashes, k);
      assert m[i] == (hashes[i].0, JString(hashes[i].1));
      forall j | 0 <= j < i
        ensures m[j].0 != k
      {
        assert m[j] == (hashes[j].0, JString(hashes[j].1));
      }
      IndexOfIs(m, k, i);
    }
  }

  lemma DigestsUnique(files: OMap<string, Bytes>, sha1: Bytes -> string)
    requires UniqueKeys(files)
    ensures UniqueKeys(Digests(files, sha1))
  {
    DigestsKeys(files, sha1);
  }

  /** Keys of a manifest: those of the old map, `pass.json` if it was not
      there, then the files not yet listed, in insertion order. */
  lemma ManifestKeys(hashes: OMap<string, string>, passJson: Bytes, files: OMap<string, Bytes>,
                     sha1: Bytes -> string)
    requires UniqueKeys(files)
    ensures Keys(Manifest(hashes, passJson, files, sha1))
         == Keys(Put(hashes, "pass.json", sha1(passJson)))
            + Without(Keys(files), KeySet(Put(hashes, "pass.json", sha1(passJson))))
  {
    DigestsUnique(files, sha1);
    DigestsKeys(files, sha1);
    PutAllKeys(Put(hashes, "pass.json", sha1(passJson)), Digests(files, sha1));
  }

  /** Each file name maps to the digest of its bytes; `pass.json`, unless a
      file has that name, to the digest of the document; any other name as
      before. */
  lemma ManifestGet(hashes: OMap<string, string>, passJson: Bytes, files: OMap<string, Bytes>,
                    sha1: Bytes -> string, k: string)
    requires UniqueKeys(files)
    ensures Get(Manifest(hashes, passJson, files, sha1), k)
         == if k in Keys(files) then Some(sha1(Get(files, k).value))
            else if k == "pass.json" then Some(sha1(passJson))
            else Get(hashes, k)
  {
    DigestsUnique(files, sha1);
    DigestsKeys(files, sha1);
    PutAllGet(Put(hashes, "pass.json", sha1(passJson)), Digests(files, sha1), k);
    DigestsGet(files, sha1, k);
    GetPut(hashes, "pass.json", sha1(passJson), k);
  }

  lemma ManifestUnique(hashes: OMap<string, string>, passJson: Bytes, files: OMap<string, Bytes>,
                       sha1: Bytes -> string)
    requires UniqueKeys(hashes)
    ensures UniqueKeys(Manifest(hashes, passJson, files, sha1))
  {
    PutKeepsUnique(hashes, "pass.json", sha1(passJson));
    PutAllKeepsUnique(Put(hashes, "pass.json", sha1(passJson)), Digests(files, sha1));
  }

  /** On a pass never created before, the manifest lists `pass.json` first
      and then the files in insertion order (a file named `pass.json` takes
      the first slot's value, not a second slot). */
  lemma FreshManifestKeys(passJson: Bytes, files: OMap<string, Bytes>, sha1: Bytes -> string)
    requires UniqueKeys(files)
    ensures Keys(Manifest([], passJson, files, sha1)) == ["pass.json"] + Without(Keys(files), {"pass.json"})
  {
    ManifestKeys([], passJson, files, sha1);
    var one: OMap<string, string> := [("pass.json", sha1(passJson))];
    assert Put([], "pass.json", sha1(passJson)) == one;
    assert Keys(one) == ["pass.json"];
    assert KeySet(one) == {"pass.json"};
  }

  /** `_hashes` is kept between calls, but since files are only ever added,
      a second `create` after more `add_file` calls writes the same manifest
      as a first one would. */
  lemma RecreateMatchesFresh(j1: Bytes, j2: Bytes, f1: OMap<string, Bytes>, f2: OMap<string, Bytes>,
                             sha1: Bytes -> string)
    requires UniqueKeys(f1) && UniqueKeys(f2)
    requires Keys(f1) <= Keys(f2)
    ensures Manifest(Manifest([], j1, f1, sha1), j2, f2, sha1) == Manifest([], j2, f2, sha1)
  {
    var h1 := Manifest([], j1, f1, sha1);
    var again := Manifest(h1, j2, f2, sha1);
    var first := Manifest([], j2, f2, sha1);
    ManifestUnique([], j1, f1, sha1);
    ManifestUnique(h1, j2, f2, sha1);
    ManifestUnique([], j2, f2, sha1);
    RecreateKeys(j1, j2, f1, f2, sha1);
    forall k ensures Get(again, k) == Get(first, k) {
      ManifestGet(h1, j2, f2, sha1, k);
      ManifestGet([], j2, f2, sha1, k);
      ManifestGet([], j1, f1, sha1, k);
      if k in Keys(f1) {
        assert k in Keys(f2);
      }
    }
    Extensionality(again, first);
  }

  /** Re-assigning the document digest in a first manifest moves nothing. */
  lemma FirstManifestRedigest(j1: Bytes, j2: Bytes, f1: OMap<string, Bytes>, sha1: Bytes -> string)
    requires UniqueKeys(f1)
    ensures Keys(Put(Manifest([], j1, f1, sha1), "pass.json", sha1(j2)))
         == ["pass.json"] + Without(Keys(f1), {"pass.json"})
    ensures KeySet(Put(Manifest([], j1, f1, sha1), "pass.json", sha1(j2)))
         == {"pass.json"} + (set k | k in Without(Keys(f1), {"pass.json"}))
  {
    var h1 := Manifest([], j1, f1, sha1);
    FreshManifestKeys(j1, f1, sha1);
    KeysOfPut(h1, "pass.json", sha1(j2));
  }

  /** The second manifest's keys: the first one's, then the new files. */
  lemma AgainKeys(j1: Bytes, j2: Bytes, f1: OMap<string, Bytes>, t: seq<string>,
                  f2: OMap<string, Bytes>, sha1: Bytes -> string)
    requires UniqueKeys(f1) && UniqueKeys(f2)
    requires Keys(f2) == Keys(f1) + t
    ensures Keys(Manifest(Manifest([], j1, f1, sha1), j2, f2, sha1))
         == (["pass.json"] + Without(Keys(f1), {"pass.json"})) + Without(t, {"pass.json"})
  {
    var h1 := Manifest([], j1, f1, sha1);
    FirstManifestRedigest(j1, j2, f1, sha1);
    ManifestKeys(h1, j2, f2, sha1);
    WithoutExtension(Keys(f1), t, "pass.json");
  }

  lemma RecreateKeys(j1: Bytes, j2: Bytes, f1: OMap<string, Bytes>, f2: OMap<string, Bytes>,
                     sha1: Bytes -> string)
    requires UniqueKeys(f1) && UniqueKeys(f2)
    requires Keys(f1) <= Keys(f2)
    ensures Keys(Manifest(Manifest([], j1, f1, sha1), j2, f2, sha1)) == Keys(Manifest([], j2, f2, sha1))
  {
    var k1 := Keys(f1);
    var t := Keys(f2)[|k1|..];
    assert Keys(f2) == k1 + t;
    AgainKeys(j1, j2, f1, t, f2, sha1);
    FreshManifestKeys(j2, f2, sha1);
    WithoutAppend(k1, t, {"pass.json"});
  }

  /** `add_file` never drops or reorders a name, and keeps names unique. */
  lemma AddFileExtends(p: Pass, name: string, contents: Bytes)
    requires UniqueKeys(p.files)
    ensures UniqueKeys(AddFile(p, name, contents).files)
    ensures Keys(p.files) <= Keys(AddFile(p, name, contents).files)
  {
    PutKeepsUnique(p.files, name, contents);
  }

  // ---------------------------------------------------------------------
  // Signing.

  /** What the openssl process returned. */
  datatype ProcessResult = ProcessResult(returnCode: int, stdout: Bytes, stderr: Bytes)

  /** The command line of `_create_signature`; `password` is the text of
      `f"pass:{password}"`, "False" when the caller gives none. */
  function OpensslArgv(certificate: string, key: string, wwdrCertificate: string,
                       password: string := "False"): seq<string>
  {
    ["openssl", "smime", "-binary", "-sign",
     "-certfile", wwdrCertificate,
     "-signer", certificate,
     "-inkey", key,
     "-outform", "DER",
     "-passin", "pass:" + password]
  }

  /** The manifest goes to openssl's standard input; its standard output is
      the signature, and a non-zero exit raises with its standard error. */
  function Sign(manifest: Bytes, argv: seq<string>, signer: (seq<string>, Bytes) -> ProcessResult): Result<Bytes, Error> {
    var out := signer(argv, manifest);
    if out.returnCode != 0 then Failure(SigningFailed(out.stderr)) else Success(out.stdout)
  }

  // ---------------------------------------------------------------------
  // The archive.

  /** The entries `_create_zip` writes, in order. A file named like one of
      the first three is written a second time. */
  function ZipEntries(passJson: Bytes, manifest: Bytes, signature: Bytes,
                      files: OMap<string, Bytes>): seq<(string, Bytes)>
  {
    [("signature", signature), ("manifest.json", manifest), ("pass.json", passJson)] + files
  }

  /** The outcome of `create`: the pass with its digest map as the call
      left it, and the archive entries or the exception. */
  datatype Created = Created(pass: Pass, archive: Result<seq<(string, Bytes)>, Error>)

  /** `create` once `json_dict` has been evaluated to `doc`: manifest,
      signature, archive, in that order. An exception in `json_dict` leaves
      the pass as it was; a signing failure comes after the manifest, so the
      new digests stay on the pass. Both versions of the library run these
      steps; they differ only in the `json_dict` that produces `doc`. */
  function CreateFrom(p: Pass, doc: Result<Json, Error>, certificate: string, key: string,
                      wwdrCertificate: string, password: string, render: Json -> Bytes,
                      sha1: Bytes -> string, signer: (seq<string>, Bytes) -> ProcessResult): Created
  {
    match doc
    case Failure(e) => Created(p, Failure(e))
    case Success(d) =>
      var passJson := render(d);
      var hashes := Manifest(p.hashes, passJson, p.files, sha1);
      var manifest := render(HashesJson(hashes));
      var p' := p.(hashes := hashes);
      match Sign(manifest, OpensslArgv(certificate, key, wwdrCertificate, password), signer)
      case Failure(e) => Created(p', Failure(e))
      case Success(signature) => Created(p', Success(ZipEntries(passJson, manifest, signature, p.files)))
  }

  /** `Pass.create` of the current version. */
  function Create(p: Pass, certificate: string, key: string, wwdrCertificate: string, password: string,
                  render: Json -> Bytes, sha1: Bytes -> string,
                  signer: (seq<string>, Bytes) -> ProcessResult): Created
  {
    CreateFrom(p, JsonDict(p), certificate, key, wwdrCertificate, password, render, sha1, signer)
  }

  /** A refused document stops `create` before anything else runs: the
      signer is never consulted and the pass is unchanged. */
  lemma RefusedDocumentStopsCreate(p: Pass, doc: Result<Json, Error>, certificate: string, key: string,
                                   wwdrCertificate: string, password: string, render: Json -> Bytes,
                                   sha1: Bytes -> string, signer: (seq<string>, Bytes) -> ProcessResult,
                                   otherSigner: (seq<string>, Bytes) -> ProcessResult)
    requires doc.Failure?
    ensures CreateFrom(p, doc, certificate, key, wwdrCertificate, password, render, sha1, signer)
         == CreateFrom(p, doc, certificate, key, wwdrCertificate, password, render, sha1, otherSigner)
    ensures CreateFrom(p, doc, certificate, key, wwdrCertificate, password, render, sha1, signer)
         == Created(p, Failure(doc.error))
  {
  }

  /** Once the document is accepted, the pass keeps the new manifest
      whatever the signer does. The archive is produced exactly when the
      signer exits 0; it is the signature, the manifest the signer was
      handed, the rendered document and the assets, in that order. */
  lemma CreatePipeline(p: Pass, doc: Result<Json, Error>, certificate: string, key: string,
                       wwdrCertificate: string, password: string, render: Json -> Bytes,
                       sha1: Bytes -> string, signer: (seq<string>, Bytes) -> ProcessResult,
                       otherSigner: (seq<string>, Bytes) -> ProcessResult)
    requires doc.Success?
    ensures var c := CreateFrom(p, doc, certificate, key, wwdrCertificate, password, render, sha1, signer);
      var argv := OpensslArgv(certificate, key, wwdrCertificate, password);
      var out := signer(argv, render(HashesJson(c.pass.hashes)));
      && c.pass == p.(hashes := Manifest(p.hashes, render(doc.value), p.files, sha1))
      && c.pass == CreateFrom(p, doc, certificate, key, wwdrCertificate, password, render, sha1, otherSigner).pass
      && (c.archive.Success? <==> out.returnCode == 0)
      && (c.archive.Failure? ==> c.archive.error == SigningFailed(out.stderr))
      && (c.archive.Success? ==>
            && Keys(c.archive.value) == ["signature", "manifest.json", "pass.json"] + Keys(p.files)
            && c.archive.value[1].1 == render(HashesJson(c.pass.hashes))
            && c.archive.value[0].1 == signer(argv, c.archive.value[1].1).stdout
            && c.archive.value[2].1 == render(doc.value)
            && c.archive.value[3..] == p.files)
  {
    var c := CreateFrom(p, doc, certificate, key, wwdrCertificate, password, render, sha1, signer);
    if c.archive.Success? {
      var head := [("signature", c.archive.value[0].1), ("manifest.json", c.archive.value[1].1),
                   ("pass.json", c.archive.value[2].1)];
      assert c.archive.value == head + p.files;
      KeysAppend(head, p.files);
    }
  }

  /** Every file written after `pass.json` is listed in the pass's new
      manifest with the digest of the bytes written. */
  lemma ArchiveMatchesManifest(p: Pass, doc: Result<Json, Error>, certificate: string, key: string,
                               wwdrCertificate: string, password: string, render: Json -> Bytes,
                               sha1: Bytes -> string, signer: (seq<string>, Bytes) -> ProcessResult, i: nat)
    requires UniqueKeys(p.files)
    requires CreateFrom(p, doc, certificate, key, wwdrCertificate, password, render, sha1, signer).archive.Success?
    requires 3 <= i < |CreateFrom(p, doc, certificate, key, wwdrCertificate, password, render, sha1, signer).archive.value|
    ensures var c := CreateFrom(p, doc, certificate, key, wwdrCertificate, password, render, sha1, signer);
      Get(c.pass.hashes, c.archive.value[i].0) == Some(sha1(c.archive.value[i].1))
  {
    var c := CreateFrom(p, doc, certificate, key, wwdrCertificate, password, render, sha1, signer);
    var passJson := render(doc.value);
    var entry := c.archive.value[i];
    assert entry == p.files[i - 3];
    GetAt(p.files, i - 3);
    assert entry.0 in Keys(p.files) by { assert Keys(p.files)[i - 3] == entry.0; }
    ManifestGet(p.hashes, passJson, p.files, sha1, entry.0);
  }

  /** The third entry is `pass.json`, and the new manifest holds its digest
      unless an added file of that name overrides it. */
  lemma ArchiveDocumentDigest(p: Pass, doc: Result<Json, Error>, certificate: string, key: string,
                              wwdrCertificate: string, password: string, render: Json -> Bytes,
                              sha1: Bytes -> string, signer: (seq<string>, Bytes) -> ProcessResult)
    requires UniqueKeys(p.files)
    requires "pass.json" !in Keys(p.files)
    requires CreateFrom(p, doc, certificate, key, wwdrCertificate, password, render, sha1, signer).archive.Success?
    ensures var c := CreateFrom(p, doc, certificate, key, wwdrCertificate, password, render, sha1, signer);
      c.archive.value[2].0 == "pass.json"
      && Get(c.pass.hashes, "pass.json") == Some(sha1(c.archive.value[2].1))
  {
    ManifestGet(p.hashes, render(doc.value), p.files, sha1, "pass.json");
  }

  /** The current `create` refuses exactly the documents `json_dict`
      refuses, with the same exception. */
  lemma CreateRefusals(p: Pass, certificate: string, key: string, wwdrCertificate: string, password: string,
                       render: Json -> Bytes, sha1: Bytes -> string,
                       signer: (seq<string>, Bytes) -> ProcessResult)
    ensures JsonDict(p).Failure? ==>
      Create(p, certificate, key, wwdrCertificate, password, render, sha1, signer) == Created(p, Failure(JsonDict(p).error))
    ensures JsonDict(p).Success? ==>
      Create(p, certificate, key, wwdrCertificate, password, render, sha1, signer).pass.hashes
      == Manifest(p.hashes, render(JsonDict(p).value), p.files, sha1)
  {
    if JsonDict(p).Success? {
      CreatePipeline(p, JsonDict(p), certificate, key, wwdrCertificate, password, render, sha1, signer, signer);
    }
  }

  /** A pass fresh from the constructor never gets past `json_dict`: its
      empty description is refused, and the pass is left as it was. */
  lemma FreshPassCreateRefused(kw: Kwargs, pi: Option<PassInformation>, certificate: string, key: string,
                               wwdrCertificate: string, password: string, render: Json -> Bytes,
                               sha1: Bytes -> string, signer: (seq<string>, Bytes) -> ProcessResult)
    requires NewPass(kw, pi).Success?
    ensures var p := NewPass(kw, pi).value;
      Create(p, certificate, key, wwdrCertificate, password, render, sha1, signer)
      == Created(p, Failure(PassParameter(MissingField("description"))))
  {
    var p := NewPass(kw, pi).value;
    FreshPassRejected(kw, pi);
    CreateRefusals(p, certificate, key, wwdrCertificate, password, render, sha1, signer);
  }
}
