/**
  The REST calls both managers make, as values: a request is a method, an endpoint
  and an insertion-ordered parameter dictionary; a reply is the decoded JSON body
  (its `retCode` and the part of `result` the caller reads) or the exception that
  sending the request raised.
 */
module Rest {
  import opened Common

  datatype HttpMethod = HttpGet | HttpPost

  /** A parameter value: the client sends strings, the `limit` int and the `reduceOnly` bool. */
  datatype ParamValue = Text(s: string) | Number(n: int) | Flag(b: bool)

  /** A parameter dictionary, in insertion order; the builders never repeat a key. */
  type Params = seq<(string, ParamValue)>

  datatype Request = Request(verb: HttpMethod, endpoint: string, params: Params)

  /**
    What `_make_request` gives its caller: the JSON body (`retCode`, absent when the
    body has none, and the `result` part the caller reads, with the caller's
    defaults for missing keys already applied), or `RequestFailed` when it raised
    (transport error, HTTP error status, undecodable body, header construction).
   */
  datatype Reply<+T> = Replied(retCode: Option<int>, result: T) | RequestFailed

  /** `response.get("retCode") == 0` */
  predicate Succeeded<T>(r: Reply<T>) {
    r.Replied? && r.retCode == Some(0)
  }

  /** `params.get(key)` */
  function Lookup(ps: Params, key: string): Option<ParamValue> {
    if ps == [] then None
    else if ps[0].0 == key then Some(ps[0].1)
    else Lookup(ps[1..], key)
  }

  function KeySet(ps: Params): set<string> {
    if ps == [] then {} else {ps[0].0} + KeySet(ps[1..])
  }

  /** A key is looked up in the first dictionary part that holds it. */
  lemma {:induction false} LookupAppend(a: Params, b: Params, key: string)
    ensures Lookup(a + b, key) == if Lookup(a, key).Some? then Lookup(a, key) else Lookup(b, key)
  {
    if a != [] {
      LookupAppend(a[1..], b, key);
      assert (a + b)[1..] == a[1..] + b;
    } else {
      assert a + b == b;
    }
  }

  lemma {:induction false} KeySetAppend(a: Params, b: Params)
    ensures KeySet(a + b) == KeySet(a) + KeySet(b)
  {
    if a != [] {
      KeySetAppend(a[1..], b);
      assert (a + b)[1..] == a[1..] + b;
    } else {
      assert a + b == b;
    }
  }

  /** The keys of a parameter dictionary, in insertion order. */
  function Keys(ps: Params): (keys: seq<string>)
    ensures |keys| == |ps| && forall i :: 0 <= i < |ps| ==> keys[i] == ps[i].0
  {
    seq(|ps|, i requires 0 <= i < |ps| => ps[i].0)
  }

  predicate DistinctKeys(ps: Params) {
    forall i, j :: 0 <= i < j < |ps| ==> ps[i].0 != ps[j].0
  }

  /** Keys of pairwise different lengths never repeat. */
  lemma {:induction false} DistinctLengths(ps: Params, lengths: seq<nat>)
    requires |lengths| == |ps| && forall i :: 0 <= i < |ps| ==> |ps[i].0| == lengths[i]
    requires forall i, j :: 0 <= i < j < |lengths| ==> lengths[i] != lengths[j]
    ensures DistinctKeys(ps)
  {
  }

  /** In a dictionary without a repeated key, each key finds its own value. */
  lemma {:induction false} LookupDistinct(ps: Params, i: nat)
    requires DistinctKeys(ps) && i < |ps|
    ensures Lookup(ps, ps[i].0) == Some(ps[i].1)
  {
    if i > 0 {
      assert ps[0].0 != ps[i].0;
      assert ps[1..][i - 1] == ps[i];
      LookupDistinct(ps[1..], i - 1);
    }
  }

  /** A key the dictionary does not hold is looked up as `None`. */
  lemma {:induction false} LookupAbsent(ps: Params, key: string)
    requires key !in Keys(ps)
    ensures Lookup(ps, key) == None
  {
    if ps != [] {
      assert Keys(ps)[0] == ps[0].0;
      assert forall i :: 0 <= i < |ps| - 1 ==> Keys(ps[1..])[i] == Keys(ps)[i + 1];
      LookupAbsent(ps[1..], key);
    }
  }

  /** `str(v)` */
  function Render(v: ParamValue): string {
    match v
    case Text(s) => s
    case Number(n) => IntToString(n)
    case Flag(b) => if b then "True" else "False"
  }
}
