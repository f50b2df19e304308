/** Reading the bootstrap data of a Machine out of its ignition config. */
module Bootstrap {
  import opened Wrappers
  import opened Hub
  import opened AgentEdits
  import opened Text

  const AUTHORIZATION := "Authorization"
  const BEARER := "Bearer "

  /** An HTTP header and an ignition resource; None stands for a nil pointer. */
  datatype Header = Header(name: string, value: Option<string>)
  datatype Resource = Resource(source: Option<string>, headers: seq<Header>)

  /** The bootstrap data secret of a Machine, already decoded. */
  datatype Secret = NotNamed | Unreadable | Decoded(merge: seq<Resource>)

  /** Panicked: a nil pointer was dereferenced. */
  datatype Parse = Parsed(data: BootstrapData, token: string) | Failed | Panicked

  // ---- What the headers mean -------------------------------------------------

  predicate BadPrefix(h: Header) {
    h.value.Some? && h.name == AUTHORIZATION && !(BEARER <= h.value.value)
  }

  predicate Bad(h: Header) {
    h.value.None? || BadPrefix(h)
  }

  predicate AllGood(hs: seq<Header>) {
    forall i | 0 <= i < |hs| :: !Bad(hs[i])
  }

  /** The header at which parsing stops. */
  predicate FirstBad(hs: seq<Header>, i: nat) {
    i < |hs| && Bad(hs[i]) && AllGood(hs[..i])
  }

  /** The value of the last header of a name. */
  function LastValue(hs: seq<Header>, name: string): Option<string> {
    if hs == [] then None
    else if hs[|hs| - 1].name == name then hs[|hs| - 1].value
    else LastValue(hs[..|hs| - 1], name)
  }

  predicate HasName(hs: seq<Header>, name: string) {
    exists i | 0 <= i < |hs| :: hs[i].name == name
  }

  /** The token: what follows the prefix in the last Authorization header. */
  predicate IsToken(hs: seq<Header>, token: string) {
    var v := LastValue(hs, AUTHORIZATION);
    if v.None? then token == "" else v.value == BEARER + token
  }

  /** The header map: the last value of every other name, and nothing else. */
  ghost predicate IsHeaderMap(hs: seq<Header>, m: map<string, string>) {
    && (forall n | n in m :: n != AUTHORIZATION && HasName(hs, n))
    && (forall i | 0 <= i < |hs| && hs[i].name != AUTHORIZATION ::
          hs[i].name in m && LastValue(hs, hs[i].name) == Some(m[hs[i].name]))
  }

  /** The headers determine the map. */
  lemma HeaderMapIsUnique(hs: seq<Header>, m: map<string, string>, n: map<string, string>)
    requires IsHeaderMap(hs, m) && IsHeaderMap(hs, n)
    ensures m == n
  {
    forall k | k in m || k in n ensures k in m && k in n && m[k] == n[k] {
      var i :| 0 <= i < |hs| && hs[i].name == k;
      assert hs[i].name in m && hs[i].name in n;
    }
  }

  // ---- What the source means ---------------------------------------------------

  function PoolOf(source: string): string {
    source[LastIndex(source, '/') + 1..]
  }

  /** The pool is the only slash-free rest of the source that starts at the
      beginning or right after a slash. */
  lemma PoolIsLastSegment(source: string, n: nat)
    requires n <= |source|
    ensures source[n..] == PoolOf(source) <==> Lacks(source[n..], '/') && (n == 0 || source[n - 1] == '/')
  {
    var cut := LastIndex(source, '/') + 1;
    assert n < cut ==> source[n..][cut - 1 - n] == '/';
    if source[n..] == PoolOf(source) {
      assert |source[n..]| == |source| - n;
    }
  }

  // ---- Parsing ---------------------------------------------------------------------

  datatype HeaderParse = Headers(token: string, others: map<string, string>) | NoPrefix | NilValue

  method ParseHeaders(hs: seq<Header>) returns (r: HeaderParse)
    ensures !AllGood(hs) ==> exists i: nat :: FirstBad(hs, i) && if hs[i].value.None? then r.NilValue? else r.NoPrefix?
    ensures r.Headers? <==> AllGood(hs)
    ensures r.Headers? ==> IsToken(hs, r.token) && IsHeaderMap(hs, r.others)
  {
    var token := "";
    var others: map<string, string> := map[];
    for i := 0 to |hs|
      invariant AllGood(hs[..i])
      invariant IsToken(hs[..i], token) && IsHeaderMap(hs[..i], others)
    {
      var h := hs[i];
      assert Bad(h) ==> FirstBad(hs, i);
      if h.value.None? { return NilValue; }
      if h.name == AUTHORIZATION && !(BEARER <= h.value.value) { return NoPrefix; }
      HeaderAdded(hs[..i], h, token, others);
      if h.name == AUTHORIZATION {
        token := h.value.value[|BEARER|..];
      } else {
        others := others[h.name := h.value.value];
      }
      assert hs[..i + 1] == hs[..i] + [h];
    }
    assert hs[..|hs|] == hs;
    return Headers(token, others);
  }

  lemma LastValueAdded(hs: seq<Header>, h: Header)
    ensures forall n :: LastValue(hs + [h], n) == if h.name == n then h.value else LastValue(hs, n)
    ensures forall n :: HasName(hs + [h], n) <==> h.name == n || HasName(hs, n)
  {
    assert (hs + [h])[..|hs|] == hs;
    forall n ensures HasName(hs + [h], n) <==> h.name == n || HasName(hs, n) {
      if h.name == n { assert (hs + [h])[|hs|].name == n; }
      if HasName(hs, n) {
        var i :| 0 <= i < |hs| && hs[i].name == n;
        assert (hs + [h])[i].name == n;
      }
    }
  }

  /** What one more good header does to the token and the header map. */
  lemma HeaderAdded(hs: seq<Header>, h: Header, token: string, others: map<string, string>)
    requires !Bad(h) && IsToken(hs, token) && IsHeaderMap(hs, others)
    ensures h.name == AUTHORIZATION ==>
      IsToken(hs + [h], h.value.value[|BEARER|..]) && IsHeaderMap(hs + [h], others)
    ensures h.name != AUTHORIZATION ==>
      IsToken(hs + [h], token) && IsHeaderMap(hs + [h], others[h.name := h.value.value])
  {
    LastValueAdded(hs, h);
    assert h.name == AUTHORIZATION ==> h.value.value == BEARER + h.value.value[|BEARER|..];
    assert forall i | 0 <= i < |hs| :: (hs + [h])[i] == hs[i];
  }

  /** What the one resource of an ignition config gives: the first bad header
      decides the error, and storing the token may fail. */
  ghost predicate ResourceParse(res: Resource, tokenRef: Key, tokenStored: bool, r: Parse) {
    var hs := res.headers;
    if res.source.None? then r.Panicked?
    else if !AllGood(hs) then exists i: nat :: FirstBad(hs, i) && if hs[i].value.None? then r.Panicked? else r.Failed?
    else if !tokenStored then r.Failed?
    else
      && r.Parsed? && r.data.machineConfigPool == PoolOf(res.source.value) && r.data.tokenRef == Some(tokenRef)
      && IsToken(hs, r.token) && IsHeaderMap(hs, r.data.httpHeaders)
  }

  method ProcessResource(res: Resource, tokenRef: Key, tokenStored: bool) returns (r: Parse)
    ensures ResourceParse(res, tokenRef, tokenStored, r)
  {
    if res.source.None? { return Panicked; }
    var source := res.source.value;
    var pool := source[LastIndex(source, '/') + 1..];
    var parsed := ParseHeaders(res.headers);
    match parsed
    case NilValue => return Panicked;
    case NoPrefix => return Failed;
    case Headers(token, others) =>
      if !tokenStored { return Failed; }
      return Parsed(BootstrapData(pool, Some(tokenRef), others), token);
  }

  /** The secrets that give bootstrap data. */
  predicate Usable(secret: Secret, tokenStored: bool) {
    match secret
    case NotNamed => true
    case Unreadable => false
    case Decoded(merge) => |merge| == 1 && merge[0].source.Some? && tokenStored && AllGood(merge[0].headers)
  }

  /** processBootstrapDataSecret. Creating or updating the token secret may fail. */
  method ProcessBootstrapData(secret: Secret, tokenRef: Key, tokenStored: bool) returns (r: Parse)
    ensures r.Parsed? <==> Usable(secret, tokenStored)
    ensures r.Parsed? ==> SecretGives(secret, tokenRef, r.data)
    ensures secret.NotNamed? ==> r == Parsed(NO_BOOTSTRAP_DATA, "")
    ensures secret.Unreadable? || (secret.Decoded? && |secret.merge| != 1) ==> r.Failed?
    ensures secret.Decoded? && |secret.merge| == 1 ==> ResourceParse(secret.merge[0], tokenRef, tokenStored, r)
  {
    match secret
    case NotNamed => return Parsed(NO_BOOTSTRAP_DATA, "");
    case Unreadable => return Failed;
    case Decoded(merge) =>
      if |merge| != 1 { return Failed; }
      r := ProcessResource(merge[0], tokenRef, tokenStored);
      if r.Parsed? { ParsedIsGiven(secret, tokenRef, tokenStored, r); }
  }

  /** What the secret gives: nothing if the Machine names none, else the rest of the
      source after its last slash, a reference to the stored token, and the headers
      other than Authorization. */
  ghost predicate SecretGives(secret: Secret, tokenRef: Key, data: BootstrapData) {
    match secret
    case NotNamed => data.machineConfigPool == "" && data.tokenRef == None && data.httpHeaders == map[]
    case Unreadable => false
    case Decoded(merge) =>
      && |merge| == 1 && merge[0].source.Some?
      && Lacks(data.machineConfigPool, '/')
      && (merge[0].source.value == data.machineConfigPool
          || exists n | 0 <= n < |merge[0].source.value| ::
               merge[0].source.value[n] == '/' && merge[0].source.value[n + 1..] == data.machineConfigPool)
      && data.tokenRef == Some(tokenRef)
      && IsHeaderMap(merge[0].headers, data.httpHeaders)
  }

  lemma ParsedIsGiven(secret: Secret, tokenRef: Key, tokenStored: bool, r: Parse)
    requires r.Parsed? && Usable(secret, tokenStored)
    requires secret.NotNamed? ==> r == Parsed(NO_BOOTSTRAP_DATA, "")
    requires secret.Decoded? && |secret.merge| == 1 ==> ResourceParse(secret.merge[0], tokenRef, tokenStored, r)
    ensures SecretGives(secret, tokenRef, r.data)
  {
    if secret.Decoded? {
      hide IsHeaderMap, IsToken, Lacks, PoolOf;
      PoolEnds(secret.merge[0].source.value);
    }
  }

  lemma PoolEnds(source: string)
    ensures Lacks(PoolOf(source), '/')
    ensures source == PoolOf(source) ||
      exists n | 0 <= n < |source| :: source[n] == '/' && source[n + 1..] == PoolOf(source)
  {
    var n := LastIndex(source, '/');
    PoolIsLastSegment(source, n + 1);
    if n < 0 { assert source[0..] == source; } else { assert source[n] == '/'; }
  }

  /** The secret determines the data. */
  lemma SecretGivesOne(secret: Secret, tokenRef: Key, d: BootstrapData, e: BootstrapData)
    requires SecretGives(secret, tokenRef, d) && SecretGives(secret, tokenRef, e)
    ensures d == e
  {
    if secret.Decoded? {
      HeaderMapIsUnique(secret.merge[0].headers, d.httpHeaders, e.httpHeaders);
      var source := secret.merge[0].source.value;
      SuffixIsLast(source, d.machineConfigPool);
      SuffixIsLast(source, e.machineConfigPool);
    }
  }

  lemma SuffixIsLast(source: string, pool: string)
    requires Lacks(pool, '/')
    requires source == pool || exists n | 0 <= n < |source| :: source[n] == '/' && source[n + 1..] == pool
    ensures pool == PoolOf(source)
  {
    if source == pool {
      PoolIsLastSegment(source, 0);
      assert source[0..] == source;
    } else {
      var n :| 0 <= n < |source| && source[n] == '/' && source[n + 1..] == pool;
      PoolIsLastSegment(source, n + 1);
    }
  }
}
