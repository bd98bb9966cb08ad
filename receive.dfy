/** The upload endpoint: a request names a cache file, carries a timestamp
    and a signature, and its body replaces the file when its hash differs
    from the stored one. The HMAC (with the server's secret, base64-encoded)
    and SHA-256 are parameters: the model treats them as functions it does
    not look into. */
module Receive {
  import opened Values

  // ---------------------------------------------------------------- the guards

  /** A character of the class `[a-z0-9._-]` under the `i` modifier. */
  predicate NameChar(c: char) {
    ('a' <= c <= 'z') || ('A' <= c <= 'Z') || ('0' <= c <= '9') || c == '.' || c == '_' || c == '-'
  }

  const JSON_SUFFIX: string := ".json"

  /** ASCII case folding for the suffix comparison. */
  function FoldChar(c: char): char {
    if 'A' <= c <= 'Z' then (c as int + 32) as char else c
  }

  /** `[a-z0-9._-]+\.json` matched against the whole of `s`, ignoring case. */
  predicate WholeMatch(s: string) {
    |s| > |JSON_SUFFIX|
    && (forall i :: 0 <= i < |s| - |JSON_SUFFIX| ==> NameChar(s[i]))
    && forall i :: 0 <= i < |JSON_SUFFIX| ==> FoldChar(s[|s| - |JSON_SUFFIX| + i]) == JSON_SUFFIX[i]
  }

  /** `preg_match('~^[a-z0-9._-]+\.json$~i', $rel)`: without the `D`
      modifier, `$` also matches just before a final line feed. */
  predicate AcceptedName(rel: string) {
    WholeMatch(rel) || (|rel| > 0 && rel[|rel| - 1] == '\n' && WholeMatch(rel[..|rel| - 1]))
  }

  lemma WholeMatchHasNoSlash(s: string)
    requires WholeMatch(s)
    ensures forall i :: 0 <= i < |s| ==> s[i] != '/'
  {
    forall i | 0 <= i < |s|
      ensures s[i] != '/'
    {
      if i >= |s| - |JSON_SUFFIX| {
        assert FoldChar(s[|s| - |JSON_SUFFIX| + (i - (|s| - |JSON_SUFFIX|))]) == JSON_SUFFIX[i - (|s| - |JSON_SUFFIX|)];
      }
    }
  }

  /** An accepted name cannot leave the target directory: it has no `/`. */
  lemma AcceptedNameHasNoSlash(rel: string)
    requires AcceptedName(rel)
    ensures '/' !in rel
  {
    if WholeMatch(rel) {
      WholeMatchHasNoSlash(rel);
    } else {
      var core := rel[..|rel| - 1];
      WholeMatchHasNoSlash(core);
      assert rel == core + ['\n'];
      assert forall i :: 0 <= i < |rel| ==> rel[i] != '/' by {
        forall i | 0 <= i < |rel|
          ensures rel[i] != '/'
        {
          if i < |core| {
            assert rel[i] == core[i];
          }
        }
      }
    }
  }

  /** An accepted name ends in `.json`, in any case. */
  lemma AcceptedNameExamples()
    ensures AcceptedName("aida_adults1.json")
    ensures AcceptedName("AIDA.JSON")
  {
  }

  /** A name followed by one line feed is accepted as well. */
  lemma TrailingLineFeedAccepted()
    ensures AcceptedName("aida_adults1.json\n")
  {
    assert "aida_adults1.json\n"[..|"aida_adults1.json\n"| - 1] == "aida_adults1.json";
  }

  /** A path outside the directory, a name with a second extension and a
      bare extension are refused. */
  lemma RefusedNameExamples()
    ensures !AcceptedName("../x.json")
    ensures !AcceptedName("a.json.php")
    ensures !AcceptedName(".json")
  {
    assert !NameChar("../x.json"[2]);
    assert FoldChar("a.json.php"[|"a.json.php"| - |JSON_SUFFIX|]) != JSON_SUFFIX[0];
  }

  /** `abs(time() - (int)$ts) > 300` */
  predicate Stale(now: int, ts: string) {
    var d := now - LeadingInt(ts);
    (if d < 0 then -d else d) > MAX_SKEW
  }

  const MAX_SKEW: int := 300

  /** The window is closed: a skew of exactly 300 seconds either way passes,
      one more second fails. */
  lemma TimestampWindow(now: int, t: int)
    ensures !Stale(now, IntToString(now - 300)) && !Stale(now, IntToString(now + 300))
    ensures Stale(now, IntToString(now - 301)) && Stale(now, IntToString(now + 301))
    ensures Stale(now, IntToString(t)) <==> t < now - 300 || t > now + 300
  {
    IntToStringReadBack(now - 300, []);
    IntToStringReadBack(now + 300, []);
    IntToStringReadBack(now - 301, []);
    IntToStringReadBack(now + 301, []);
    IntToStringReadBack(t, []);
    assert IntToString(now - 300) + [] == IntToString(now - 300);
    assert IntToString(now + 300) + [] == IntToString(now + 300);
    assert IntToString(now - 301) + [] == IntToString(now - 301);
    assert IntToString(now + 301) + [] == IntToString(now + 301);
    assert IntToString(t) + [] == IntToString(t);
  }

  /** The signed text: `$ts . "\n" . $rel . "\n" . $body`. */
  function SignedText(ts: string, rel: string, body: string): string {
    ts + "\n" + rel + "\n" + body
  }

  // ---------------------------------------------------------------- the request

  /** What the client sends: the `X-TS` and `X-SIG` headers (empty when
      missing), the `file` query parameter (empty when missing) and the body. */
  datatype Request = Request(ts: string, sig: string, rel: string, body: string)

  datatype Response = Response(status: int, text: string)

  /** The name of the hash file and of the temporary file of a target. */
  function HashFile(rel: string): string { rel + ".sha256" }
  function TmpFile(rel: string): string { rel + ".tmp" }

  /** The stored hash: the trimmed hash file, empty when there is none. */
  function StoredHash(files: map<string, string>, rel: string): string {
    if HashFile(rel) in files then Trim(files[HashFile(rel)]) else ""
  }

  /** The response and the directory after one request, `files` holding the
      target directory by file name. The guards run in order and the first
      that fails answers; a body whose hash equals the stored one is not
      written; otherwise the temporary file is renamed onto the target and
      the new hash is stored. */
  function Handle(files: map<string, string>, req: Request, now: int, mac: string -> string, sha: string -> string): (Response, map<string, string>) {
    if !AcceptedName(req.rel) then (Response(400, "Bad filename"), files)
    else if Stale(now, req.ts) then (Response(401, "Stale timestamp"), files)
    else if mac(SignedText(req.ts, req.rel, req.body)) != req.sig then (Response(401, "Bad signature"), files)
    else
      var hashNew := sha(req.body);
      if hashNew == StoredHash(files, req.rel) then (Response(200, "NOCHANGE"), files)
      else (Response(200, "OK"), (files - {TmpFile(req.rel)})[req.rel := req.body][HashFile(req.rel) := hashNew])
  }

  /** The first failing guard decides the answer, and a refused request
      changes nothing. */
  lemma GuardOrder(files: map<string, string>, req: Request, now: int, mac: string -> string, sha: string -> string)
    ensures var (resp, after) := Handle(files, req, now, mac, sha);
      && (!AcceptedName(req.rel) ==> resp == Response(400, "Bad filename"))
      && (AcceptedName(req.rel) && Stale(now, req.ts) ==> resp == Response(401, "Stale timestamp"))
      && (AcceptedName(req.rel) && !Stale(now, req.ts) && mac(SignedText(req.ts, req.rel, req.body)) != req.sig ==>
            resp == Response(401, "Bad signature"))
      && (resp.status != 200 ==> after == files)
      && (resp.status == 200 <==> AcceptedName(req.rel) && !Stale(now, req.ts) && mac(SignedText(req.ts, req.rel, req.body)) == req.sig)
  {
  }

  /** An accepted request answers NOCHANGE and writes nothing when the body
      hashes to the stored hash; otherwise it answers OK, the target holds
      the body, the hash file holds the new hash, the temporary file is
      gone, and no other file of the directory changes. */
  lemma WriteOnlyOnChange(files: map<string, string>, req: Request, now: int, mac: string -> string, sha: string -> string)
    requires Handle(files, req, now, mac, sha).0.status == 200
    ensures var (resp, after) := Handle(files, req, now, mac, sha);
      && (resp.text == "NOCHANGE" <==> sha(req.body) == StoredHash(files, req.rel))
      && (resp.text == "NOCHANGE" ==> after == files)
      && (resp.text == "OK" ==>
            && req.rel in after && after[req.rel] == req.body
            && HashFile(req.rel) in after && after[HashFile(req.rel)] == sha(req.body)
            && TmpFile(req.rel) !in after
            && forall f :: f != req.rel && f != HashFile(req.rel) && f != TmpFile(req.rel) ==>
                 (f in after <==> f in files) && (f in files ==> after[f] == files[f]))
  {
    var rel := req.rel;
    assert rel != HashFile(rel) && rel != TmpFile(rel) && HashFile(rel) != TmpFile(rel) by {
      assert |HashFile(rel)| == |rel| + 7 && |TmpFile(rel)| == |rel| + 4;
    }
  }

  /** Sending the same body again right after an OK answers NOCHANGE, as
      long as the hash text has no white space at its ends. */
  lemma ResendIsNoChange(files: map<string, string>, req: Request, now: int, mac: string -> string, sha: string -> string)
    requires Handle(files, req, now, mac, sha).0 == Response(200, "OK")
    requires var h := sha(req.body); |h| > 0 && !TrimChar(h[0]) && !TrimChar(h[|h| - 1])
    ensures var after := Handle(files, req, now, mac, sha).1;
      Handle(after, req, now, mac, sha) == (Response(200, "NOCHANGE"), after)
  {
    var after := Handle(files, req, now, mac, sha).1;
    assert req.rel != HashFile(req.rel) by {
      assert |HashFile(req.rel)| == |req.rel| + 7;
    }
    assert after[HashFile(req.rel)] == sha(req.body);
  }

  /** The target directory of the endpoint. */
  class UploadDir {
    var files: map<string, string>

    constructor (initial: map<string, string>)
      ensures files == initial
    {
      files := initial;
    }

    /** One request to `receive.php`. */
    method Receive(req: Request, now: int, mac: string -> string, sha: string -> string) returns (resp: Response)
      modifies this
      ensures (resp, files) == Handle(old(files), req, now, mac, sha)
    {
      if !AcceptedName(req.rel) {
        return Response(400, "Bad filename");
      }
      var t := LeadingInt(req.ts);
      var skew := if now - t < 0 then t - now else now - t;
      if skew > MAX_SKEW {
        return Response(401, "Stale timestamp");
      }
      assert !Stale(now, req.ts);
      var signature := mac(req.ts + "\n" + req.rel + "\n" + req.body);
      if signature != req.sig {
        return Response(401, "Bad signature");
      }
      var hashNew := sha(req.body);
      var hashFile := req.rel + ".sha256";
      var hashOld := if hashFile in files then Trim(files[hashFile]) else "";
      if hashNew == hashOld {
        return Response(200, "NOCHANGE");
      }
      assert hashNew != StoredHash(old(files), req.rel);
      // The body goes to the temporary file, which is then renamed onto the target.
      var tmp := req.rel + ".tmp";
      ghost var before := files;
      files := files[tmp := req.body];
      files := (files - {tmp})[req.rel := files[tmp]];
      assert files == (before - {tmp})[req.rel := req.body];
      files := files[hashFile := hashNew];
      resp := Response(200, "OK");
    }
  }
}
