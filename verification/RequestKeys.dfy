/** How a request is named in retry coordination: its scoped key, its fingerprint and its two Redis keys. */
module RequestKeys {
  import opened Encodings

  const NUL: char := '\0'

  /** Header names and bodies are taken as byte strings; `digest` stands for SHA-256 in hex. */
  type Digest = string -> string

  datatype Request = Request(httpMethod: string, path: string, user: string, body: string)

  function ScopedKey(user: string, key: string): string {
    user + [NUL] + key
  }

  /** What the fingerprint is the digest of. */
  function Described(r: Request): string {
    r.httpMethod + [NUL] + r.path + [NUL] + r.user + [NUL] + r.body
  }

  function Fingerprint(digest: Digest, r: Request): string {
    digest(Described(r))
  }

  function ResultKey(digest: Digest, scoped: string): string {
    "pixelgo:idempotency:" + digest(scoped) + ":result"
  }

  function LockKey(digest: Digest, scoped: string): string {
    "pixelgo:idempotency:" + digest(scoped) + ":lock"
  }

  ghost predicate Injective(digest: Digest) {
    forall a, b :: digest(a) == digest(b) ==> a == b
  }

  /** Two users never share a key, and one user's keys stay apart, whatever bytes the keys contain. */
  lemma ScopedKeyUnique(user: string, key: string, user': string, key': string)
    requires NUL !in user && NUL !in user'
    ensures ScopedKey(user, key) == ScopedKey(user', key') <==> user == user' && key == key'
  {
    if ScopedKey(user, key) == ScopedKey(user', key') {
      FirstSeparator(user, key, user', key', NUL);
    }
  }

  lemma DescribedTail(r: Request)
    ensures Described(r) == r.httpMethod + [NUL] + (r.path + [NUL] + (r.user + [NUL] + r.body))
  {
    var tail := r.user + [NUL] + r.body;
    Regroup(r.httpMethod + [NUL], r.path + [NUL], tail);
    Regroup(r.httpMethod + [NUL], r.path, [NUL]);
    Regroup(r.httpMethod + [NUL] + r.path + [NUL], r.user + [NUL], r.body);
    Regroup(r.httpMethod + [NUL] + r.path + [NUL], r.user, [NUL]);
  }

  ghost predicate Plain(r: Request) {
    NUL !in r.httpMethod && NUL !in r.path && NUL !in r.user
  }

  /** Without NUL in method, path and user, equal fingerprints mean the same request, body and all. */
  lemma FingerprintUnique(digest: Digest, r: Request, r': Request)
    requires Injective(digest) && Plain(r) && Plain(r')
    ensures Fingerprint(digest, r) == Fingerprint(digest, r') <==> r == r'
  {
    if Fingerprint(digest, r) == Fingerprint(digest, r') {
      assert Described(r) == Described(r');
      DescribedTail(r);
      DescribedTail(r');
      var user, user' := r.user + [NUL] + r.body, r'.user + [NUL] + r'.body;
      FirstSeparator(r.httpMethod, r.path + [NUL] + user, r'.httpMethod, r'.path + [NUL] + user', NUL);
      FirstSeparator(r.path, user, r'.path, user', NUL);
      FirstSeparator(r.user, r.body, r'.user, r'.body, NUL);
    }
  }

  /** A path with a decoded NUL can pass for another path and body of the same user. */
  lemma NulInPathCollides(digest: Digest, user: string)
    ensures var r, r' := Request("POST", "/a", user, "x" + [NUL] + user + [NUL] + "y"),
                         Request("POST", "/a" + [NUL] + user + [NUL] + "x", user, "y");
            r != r' && Fingerprint(digest, r) == Fingerprint(digest, r')
  {
    var r, r' := Request("POST", "/a", user, "x" + [NUL] + user + [NUL] + "y"),
                 Request("POST", "/a" + [NUL] + user + [NUL] + "x", user, "y");
    assert Described(r) == "POST" + [NUL] + "/a" + [NUL] + user + [NUL] + "x" + [NUL] + user + [NUL] + "y";
    assert Described(r') == "POST" + [NUL] + "/a" + [NUL] + user + [NUL] + "x" + [NUL] + user + [NUL] + "y";
    assert |r.path| != |r'.path|;
  }

  /** What follows the method in the description. */
  function Rest(path: string, user: string, body: string): string {
    path + ([NUL] + user + [NUL]) + body
  }

  predicate MarkAt(s: string, user: string, i: nat) {
    i + |user| + 2 <= |s| && s[i..i + |user| + 2] == [NUL] + user + [NUL]
  }

  lemma DescribedRest(r: Request)
    ensures Described(r) == r.httpMethod + [NUL] + Rest(r.path, r.user, r.body)
  {
    var mark := [NUL] + r.user + [NUL];
    DescribedTail(r);
    Regroup([NUL], r.user, [NUL]);
    Regroup(r.path, mark, r.body);
    Regroup(r.path, [NUL], r.user + [NUL] + r.body);
    assert mark + r.body == [NUL] + (r.user + [NUL] + r.body);
  }

  lemma RestSplits(path: string, user: string, body: string)
    ensures MarkAt(Rest(path, user, body), user, |path|)
    ensures Rest(path, user, body)[..|path|] == path
    ensures Rest(path, user, body)[|path| + |user| + 2..] == body
  {
  }

  lemma MarkGivesRest(s: string, user: string, i: nat)
    requires MarkAt(s, user, i)
    ensures Rest(s[..i], user, s[i + |user| + 2..]) == s
  {
  }

  /** Another request of the same user with the same description. */
  ghost predicate Twin(r: Request, r': Request) {
    r' != r && r'.user == r.user && NUL !in r'.httpMethod && Described(r') == Described(r)
  }

  /** A request has a twin exactly when its user's NUL-delimited name stands in it at some second place. */
  lemma TwinIffSecondMark(r: Request)
    requires NUL !in r.httpMethod
    ensures (exists r' :: Twin(r, r'))
            <==> exists i: nat :: i != |r.path| && MarkAt(Rest(r.path, r.user, r.body), r.user, i)
  {
    var rest := Rest(r.path, r.user, r.body);
    DescribedRest(r);
    RestSplits(r.path, r.user, r.body);
    if r' :| Twin(r, r') {
      TwinHasMark(r, r');
    }
    if i: nat :| i != |r.path| && MarkAt(rest, r.user, i) {
      MarkHasTwin(r, i);
    }
  }

  lemma TwinHasMark(r: Request, r': Request)
    requires NUL !in r.httpMethod && Twin(r, r')
    ensures |r'.path| != |r.path| && MarkAt(Rest(r.path, r.user, r.body), r.user, |r'.path|)
  {
    DescribedRest(r);
    DescribedRest(r');
    FirstSeparator(r.httpMethod, Rest(r.path, r.user, r.body), r'.httpMethod, Rest(r'.path, r'.user, r'.body), NUL);
    RestSplits(r.path, r.user, r.body);
    RestSplits(r'.path, r'.user, r'.body);
  }

  lemma MarkHasTwin(r: Request, i: nat)
    requires NUL !in r.httpMethod
    requires i != |r.path| && MarkAt(Rest(r.path, r.user, r.body), r.user, i)
    ensures exists r' :: Twin(r, r')
  {
    var rest := Rest(r.path, r.user, r.body);
    var r' := Request(r.httpMethod, rest[..i], r.user, rest[i + |r.user| + 2..]);
    MarkGivesRest(rest, r.user, i);
    DescribedRest(r);
    DescribedRest(r');
    assert |r'.path| == i;
    assert Twin(r, r');
  }

  /** A key's lock and result are different Redis keys, and no other scoped key has either of them. */
  lemma RedisKeysApart(digest: Digest, a: string, b: string)
    requires Injective(digest)
    ensures ResultKey(digest, a) != LockKey(digest, b)
    ensures ResultKey(digest, a) == ResultKey(digest, b) ==> a == b
    ensures LockKey(digest, a) == LockKey(digest, b) ==> a == b
  {
    var base := |"pixelgo:idempotency:"|;
    var result, lock := ResultKey(digest, a), LockKey(digest, b);
    assert result[|result| - 1] == 't' && lock[|lock| - 1] == 'k';
    assert ResultKey(digest, a)[base..|result| - 7] == digest(a);
    assert ResultKey(digest, b)[base..|ResultKey(digest, b)| - 7] == digest(b);
    assert LockKey(digest, a)[base..|LockKey(digest, a)| - 5] == digest(a);
    assert LockKey(digest, b)[base..|lock| - 5] == digest(b);
  }
}
