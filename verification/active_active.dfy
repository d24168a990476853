/**
 * The bookkeeping of the active-active use case
 * (examples/use-cases/active-active/cli/main.go): the `region=url` list
 * given on the command line, the table of last acknowledged sequences per
 * consumer, the record of acknowledged messages, the start-sequence rule
 * that re-creates a consumer after a failover and the region check of the
 * connection manager. Mutexes are left out: the operations are sequential
 * here; connections, subscriptions and JetStream calls are inputs.
 */
module ActiveActive {
  import opened Wrappers
  import opened Strs
  import Order

  // Parsing the -urls flag

  /** A token splits on '=' into exactly a region and a URL. */
  predicate ValidToken(u: string) {
    |Split(u, '=')| == 2
  }

  function RegionOf(u: string): string
    requires ValidToken(u)
  {
    Split(u, '=')[0]
  }

  function UrlOf(u: string): string
    requires ValidToken(u)
  {
    Split(u, '=')[1]
  }

  /** The region URLs and the order regions first appear in. */
  datatype Regions = Regions(urls: map<string, seq<string>>, order: seq<string>)

  /** One loop iteration over a valid token: a new region joins the order and the URL is appended to its list. */
  function AddToken(rs: Regions, u: string): Regions
    requires ValidToken(u)
  {
    var r := RegionOf(u);
    var order := if r in rs.urls then rs.order else rs.order + [r];
    var prev := if r in rs.urls then rs.urls[r] else [];
    Regions(rs.urls[r := prev + [UrlOf(u)]], order)
  }

  function AddAll(tokens: seq<string>): Regions
    requires forall i | 0 <= i < |tokens| :: ValidToken(tokens[i])
  {
    if |tokens| == 0 then Regions(map[], [])
    else AddToken(AddAll(tokens[..|tokens| - 1]), tokens[|tokens| - 1])
  }

  /** The index of the first token that is not `region=url`; |tokens| when every one is. */
  function FirstInvalid(tokens: seq<string>): (k: nat)
    ensures k <= |tokens| && (forall i | 0 <= i < k :: ValidToken(tokens[i]))
    ensures k < |tokens| ==> !ValidToken(tokens[k])
  {
    if |tokens| == 0 || !ValidToken(tokens[0]) then 0 else 1 + FirstInvalid(tokens[1..])
  }

  /** What the parsing loop in run yields: the first invalid token is an error, otherwise the regions. */
  function ParseUrls(urls: string): Result<Regions, string> {
    var tokens := Split(urls, ',');
    var k := FirstInvalid(tokens);
    if k < |tokens| then Err("invalid url: " + tokens[k]) else Ok(AddAll(tokens))
  }

  /** The parsing loop of run over the comma-separated tokens. */
  method ParseRegionUrls(urls: string) returns (r: Result<Regions, string>)
    ensures r == ParseUrls(urls)
  {
    var tokens := Split(urls, ',');
    ghost var k := FirstInvalid(tokens);
    var regionsUrls: map<string, seq<string>> := map[];
    var regionOrder: seq<string> := [];
    for i := 0 to |tokens|
      invariant i <= k
      invariant Regions(regionsUrls, regionOrder) == AddAll(tokens[..i])
    {
      var u := tokens[i];
      var parts := Split(u, '=');
      if |parts| != 2 {
        assert k == i;
        return Err("invalid url: " + u);
      }
      ghost var next := tokens[..i + 1];
      assert next[..i] == tokens[..i] && next[i] == u;
      if parts[0] !in regionsUrls {
        regionOrder := regionOrder + [parts[0]];
      }
      var prev := if parts[0] in regionsUrls then regionsUrls[parts[0]] else [];
      regionsUrls := regionsUrls[parts[0] := prev + [parts[1]]];
    }
    assert tokens[..|tokens|] == tokens && k == |tokens|;
    return Ok(Regions(regionsUrls, regionOrder));
  }

  /** An empty -urls flag is one empty token, which has no '=': parsing fails. */
  lemma EmptyUrlsFail()
    ensures ParseUrls("") == Err("invalid url: ")
  {
    IndexOneChar("", ',');
    IndexOneChar("", '=');
    assert Split("", ',') == [""];
    assert Split("", '=') == [""];
    assert !ValidToken("");
    assert FirstInvalid([""]) == 0;
    assert "invalid url: " + "" == "invalid url: ";
  }

  /** The regions of the tokens, in input order. */
  function RegionsOf(tokens: seq<string>): (rs: seq<string>)
    requires forall i | 0 <= i < |tokens| :: ValidToken(tokens[i])
    ensures |rs| == |tokens|
  {
    if |tokens| == 0 then [] else RegionsOf(tokens[..|tokens| - 1]) + [RegionOf(tokens[|tokens| - 1])]
  }

  /** The URLs the tokens give a region, in input order. */
  function UrlsFor(tokens: seq<string>, r: string): seq<string>
    requires forall i | 0 <= i < |tokens| :: ValidToken(tokens[i])
  {
    if |tokens| == 0 then []
    else
      var u := tokens[|tokens| - 1];
      UrlsFor(tokens[..|tokens| - 1], r) + if RegionOf(u) == r then [UrlOf(u)] else []
  }

  /** regionsURLs maps exactly the regions the tokens name. */
  lemma {:induction false} AddAllKeys(tokens: seq<string>)
    requires forall i | 0 <= i < |tokens| :: ValidToken(tokens[i])
    ensures forall r :: r in AddAll(tokens).urls <==> r in RegionsOf(tokens)
  {
    if |tokens| > 0 {
      var init := tokens[..|tokens| - 1];
      AddAllKeys(init);
      assert RegionsOf(tokens) == RegionsOf(init) + [RegionOf(tokens[|tokens| - 1])];
    }
  }

  /** regionsURLs holds, for each region, its URLs in input order. */
  lemma {:induction false} AddAllUrls(tokens: seq<string>)
    requires forall i | 0 <= i < |tokens| :: ValidToken(tokens[i])
    ensures forall r | r in AddAll(tokens).urls :: AddAll(tokens).urls[r] == UrlsFor(tokens, r)
  {
    if |tokens| > 0 {
      var init := tokens[..|tokens| - 1];
      AddAllUrls(init);
      AddAllKeys(init);
      forall r | r !in AddAll(init).urls ensures UrlsFor(init, r) == [] {
        UrlsForAbsent(init, r);
      }
    }
  }

  /** A region no token names has no URLs. */
  lemma {:induction false} UrlsForAbsent(tokens: seq<string>, r: string)
    requires forall i | 0 <= i < |tokens| :: ValidToken(tokens[i])
    requires r !in RegionsOf(tokens)
    ensures UrlsFor(tokens, r) == []
  {
    if |tokens| > 0 {
      var init := tokens[..|tokens| - 1];
      assert RegionsOf(tokens) == RegionsOf(init) + [RegionOf(tokens[|tokens| - 1])];
      UrlsForAbsent(init, r);
    }
  }

  /** regionOrder is the regions in order of first mention, as MetaOrder picks them. */
  lemma {:induction false} AddAllOrder(tokens: seq<string>)
    requires forall i | 0 <= i < |tokens| :: ValidToken(tokens[i])
    ensures AddAll(tokens).order == Order.MetaOrder(RegionsOf(tokens), AddAll(tokens).urls.Keys)
  {
    if |tokens| > 0 {
      var init := tokens[..|tokens| - 1];
      AddAllOrder(init);
      AddAllKeys(init);
      AddAllKeys(tokens);
      var before := AddAll(init);
      var after := AddAll(tokens);
      var names := RegionsOf(tokens);
      assert names == RegionsOf(init) + [RegionOf(tokens[|tokens| - 1])];
      assert names[..|names| - 1] == RegionsOf(init);
      MetaOrderKeys(RegionsOf(init), before.urls.Keys, after.urls.Keys);
      Order.MetaOrderMembers(RegionsOf(init), before.urls.Keys);
    }
  }

  /** MetaOrder over names that are all keys does not change when more keys are added. */
  lemma {:induction false} MetaOrderKeys(names: seq<string>, keys: set<string>, more: set<string>)
    requires forall n | n in names :: n in keys
    requires keys <= more
    ensures Order.MetaOrder(names, keys) == Order.MetaOrder(names, more)
  {
    if |names| > 0 {
      MetaOrderKeys(names[..|names| - 1], keys, more);
    }
  }

  /** regionOrder lists each region once, and in the order the tokens first name them. */
  lemma RegionOrderSpec(tokens: seq<string>)
    requires forall i | 0 <= i < |tokens| :: ValidToken(tokens[i])
    ensures var rs := AddAll(tokens);
      Order.Distinct(rs.order)
      && (forall r :: r in rs.order <==> r in RegionsOf(tokens))
      && (forall i, j | 0 <= i < j < |rs.order| && rs.order[i] in RegionsOf(tokens) && rs.order[j] in RegionsOf(tokens) ::
            Order.FirstMention(RegionsOf(tokens), rs.order[i]) < Order.FirstMention(RegionsOf(tokens), rs.order[j]))
  {
    var rs := AddAll(tokens);
    AddAllKeys(tokens);
    AddAllOrder(tokens);
    Order.MetaOrderMembers(RegionsOf(tokens), rs.urls.Keys);
    Order.MetaOrderFirst(RegionsOf(tokens), rs.urls.Keys);
  }

  // ConsumerSeqs

  /** Indexing a Go map of sequences: the stored sequence, or the zero value 0 when none. */
  function SeqOrZero(m: map<(string, string), nat>, key: (string, string)): nat {
    if key in m then m[key] else 0
  }

  class ConsumerSeqs {
    var seqs: map<(string, string), nat>
    var seqTags: map<(string, string, string), nat>

    /** NewConsumerSeqs: both tables empty. */
    constructor ()
      ensures seqs == map[] && seqTags == map[]
    {
      seqs, seqTags := map[], map[];
    }

    /** Get: the sequence stored for a stream and consumer name, 0 (Go's zero value) when none. */
    function Get(stream: string, name: string): (s: nat)
      reads this
      ensures (stream, name) !in seqs ==> s == 0
      ensures (stream, name) in seqs ==> s == seqs[(stream, name)]
    {
      SeqOrZero(seqs, (stream, name))
    }

    /** Set: the same sequence under (stream, name) and under (region, stream, name). */
    method Set(region: string, stream: string, name: string, sequence: nat)
      modifies this
      ensures seqs == old(seqs)[(stream, name) := sequence]
      ensures seqTags == old(seqTags)[(region, stream, name) := sequence]
    {
      seqs := seqs[(stream, name) := sequence];
      seqTags := seqTags[(region, stream, name) := sequence];
    }
  }

  /** One call of ConsumerSeqs.Set. */
  datatype SeqSet = SeqSet(region: string, stream: string, name: string, sequence: nat)

  /** The sequences by (stream, name) after a series of Set calls from empty. */
  function SeqsAfter(calls: seq<SeqSet>): map<(string, string), nat> {
    if |calls| == 0 then map[]
    else
      var c := calls[|calls| - 1];
      SeqsAfter(calls[..|calls| - 1])[(c.stream, c.name) := c.sequence]
  }

  /** What Get returns after a series of Set calls. */
  function GetAfter(calls: seq<SeqSet>, stream: string, name: string): nat {
    SeqOrZero(SeqsAfter(calls), (stream, name))
  }

  /** Get returns 0 for a stream and consumer name no Set call named. */
  lemma {:induction false} GetAfterUnset(calls: seq<SeqSet>, stream: string, name: string)
    requires forall i | 0 <= i < |calls| :: (calls[i].stream, calls[i].name) != (stream, name)
    ensures GetAfter(calls, stream, name) == 0
  {
    if |calls| > 0 {
      GetAfterUnset(calls[..|calls| - 1], stream, name);
    }
  }

  /**
   * Get returns the sequence of the last Set for the stream and consumer
   * name, whatever region that call gave.
   */
  lemma {:induction false} GetAfterLast(calls: seq<SeqSet>, i: nat, stream: string, name: string)
    requires i < |calls| && calls[i].stream == stream && calls[i].name == name
    requires forall j | i < j < |calls| :: (calls[j].stream, calls[j].name) != (stream, name)
    ensures GetAfter(calls, stream, name) == calls[i].sequence
  {
    if i < |calls| - 1 {
      var init := calls[..|calls| - 1];
      GetAfterLast(init, i, stream, name);
    }
  }

  // The start-sequence rule of setupConsumers

  const TwoTo64: nat := 0x1_0000_0000_0000_0000

  datatype DeliverPolicy = DeliverAll | DeliverByStartSequence

  datatype ConsumerConfig = ConsumerConfig(name: string, deliverSubject: string, deliverPolicy: DeliverPolicy, optStartSeq: nat)

  /**
   * The start of a re-created consumer: from the message after the last
   * acknowledged one when a sequence is stored, from the start of the
   * stream otherwise. `stored + 1` is uint64 arithmetic.
   */
  function StartFrom(cfg: ConsumerConfig, stored: nat): (r: ConsumerConfig)
    requires stored < TwoTo64
    ensures r.name == cfg.name && r.deliverSubject == cfg.deliverSubject
    ensures stored == 0 ==> r == cfg
    ensures stored > 0 ==> r.deliverPolicy == DeliverByStartSequence
    ensures 0 < stored < TwoTo64 - 1 ==> r.optStartSeq == stored + 1
    ensures stored == TwoTo64 - 1 ==> r.optStartSeq == 0
  {
    if stored > 0 then cfg.(deliverPolicy := DeliverByStartSequence, optStartSeq := (stored + 1) % TwoTo64) else cfg
  }

  /** The push consumer's configuration for a region. */
  function PushConfig(region: string, stored: nat): (r: ConsumerConfig)
    requires stored < TwoTo64
    ensures r.name == "push-handler" && r.deliverSubject == "push-handler-" + region
    ensures r.deliverPolicy == DeliverAll <==> stored == 0
  {
    StartFrom(ConsumerConfig("push-handler", "push-handler-" + region, DeliverAll, 0), stored)
  }

  /** The pull consumer's configuration: no deliver subject. */
  function PullConfig(stored: nat): (r: ConsumerConfig)
    requires stored < TwoTo64
    ensures r.name == "pull-handler" && r.deliverSubject == ""
    ensures r.deliverPolicy == DeliverAll <==> stored == 0
  {
    StartFrom(ConsumerConfig("pull-handler", "", DeliverAll, 0), stored)
  }

  // AckMsgs

  datatype AckMsg = AckMsg(region: string, subject: string, sequence: nat, data: string)

  class AckMsgs {
    var msgs: seq<AckMsg>

    constructor ()
      ensures msgs == []
    {
      msgs := [];
    }

    /** Add: one record at the end, the earlier ones unchanged. */
    method Add(region: string, sub: string, sequence: nat, data: string)
      modifies this
      ensures |msgs| == |old(msgs)| + 1 && msgs[..|old(msgs)|] == old(msgs)
      ensures msgs[|msgs| - 1] == AckMsg(region, sub, sequence, data)
    {
      msgs := msgs + [AckMsg(region, sub, sequence, data)];
    }
  }

  // The connection manager's region check

  class ConnManager {
    const regionUrls: map<string, seq<string>>
    var currentRegion: string
    /** The server URL list of the current connection, if any. */
    var connUrl: Option<string>

    constructor (regionUrls: map<string, seq<string>>)
      ensures this.regionUrls == regionUrls && currentRegion == "" && connUrl == None
    {
      this.regionUrls := regionUrls;
      currentRegion, connUrl := "", None;
    }

    /**
     * setupConn: an unknown region is rejected before anything changes;
     * otherwise the region becomes current, even if connecting then fails,
     * and on success the connection is to the region's URLs joined with ','.
     * `connect` is what connecting to that URL list returns.
     */
    method SetupConn(region: string, connect: Option<string>) returns (err: Option<string>)
      modifies this
      ensures region !in regionUrls ==>
        err == Some("invalid region: " + region) && currentRegion == old(currentRegion) && connUrl == old(connUrl)
      ensures region in regionUrls ==> currentRegion == region && err == connect
      ensures region in regionUrls && connect.None? ==> connUrl == Some(Join(regionUrls[region], ","))
      ensures region in regionUrls && connect.Some? ==> connUrl == old(connUrl)
    {
      if region !in regionUrls {
        return Some("invalid region: " + region);
      }
      var urls := regionUrls[region];
      currentRegion := region;
      var url := Join(urls, ",");
      if connect.Some? {
        return connect;
      }
      connUrl := Some(url);
      return None;
    }
  }
}
