/**
 The NG Setup request handler: duplicate check, flattening of the broadcast tracking areas, and the
 decision whether one of them is served (section 8.7.1 of TS 38.413).
 */
module NgSetup {
  import opened Sequences
  import opened Codecs

  /** The configured tracking areas are strings and are compared as strings. */
  datatype Tai = Tai(plmnId: PlmnId, tac: string, nid: Option<string>)

  datatype BroadcastPlmn = BroadcastPlmn(plmn: Octets, slices: NonEmpty<NgapSnssai>)
  datatype SupportedTa = SupportedTa(tac: Octets, plmns: seq<BroadcastPlmn>)
  datatype Request<+Node> = Request(nodeId: Node, tas: seq<SupportedTa>)

  datatype SupportedTai = SupportedTai(tai: Tai, snssais: NonEmpty<SbiSnssai>)

  datatype Config = Config(tais: seq<Tai>, amfName: string)

  datatype Error<+Node> =
    | ConflictingRanId(nodeId: Node)
    | ConversionError
    | UnsupportedTais(tais: seq<SupportedTai>)

  datatype Response<+Node> =
    | Success(plmnSupport: NonEmpty<NgapPlmnSupport>, amfName: string, capacity: nat)
    | Failure(error: Error<Node>)

  // ----- flattening

  /** One PLMN broadcast in one tracking area. */
  datatype Pair = Pair(tac: Octets, item: BroadcastPlmn)

  function PairsOf(ta: SupportedTa): seq<Pair> {
    MapSeq((item: BroadcastPlmn) => Pair(ta.tac, item), ta.plmns)
  }

  /** The (area, PLMN) pairs of a request, area by area. */
  function Pairs(tas: seq<SupportedTa>): seq<Pair> { FlatMap(PairsOf, tas) }

  function Convert(pair: Pair): Option<SupportedTai> {
    match DecodePlmn(pair.item.plmn)
    case None => None
    case Some(p) =>
      Some(SupportedTai(Tai(p, HexString(pair.tac), None), TransformNonempty(pair.item.slices, ToSbiSnssai)))
  }

  /** All pairs converted in order, or nothing if one of them does not decode. */
  function ConvertAll(pairs: seq<Pair>): Option<seq<SupportedTai>> { AllSome(Convert, pairs) }

  /** A pair is in the flattened list exactly when the request sends that PLMN for that area. */
  lemma PairsAre(tas: seq<SupportedTa>, pair: Pair)
    ensures pair in Pairs(tas) <==> exists i :: 0 <= i < |tas| && tas[i].tac == pair.tac && pair.item in tas[i].plmns
  {
    FlatMapIn(PairsOf, tas, pair);
    forall i | 0 <= i < |tas|
      ensures pair in PairsOf(tas[i]) <==> tas[i].tac == pair.tac && pair.item in tas[i].plmns
    {
      InArea(tas[i], pair);
    }
  }

  lemma InArea(ta: SupportedTa, pair: Pair)
    ensures pair in PairsOf(ta) <==> ta.tac == pair.tac && pair.item in ta.plmns
  {
    if ta.tac == pair.tac && pair.item in ta.plmns {
      var i :| 0 <= i < |ta.plmns| && ta.plmns[i] == pair.item;
      assert PairsOf(ta)[i] == pair;
    }
  }

  // ----- the handler

  predicate AnyServed(tais: seq<SupportedTai>, served: seq<Tai>) {
    exists i :: 0 <= i < |served| && exists j :: 0 <= j < |tais| && tais[j].tai == served[i]
  }

  /** Every broadcast PLMN decodes and one of the areas is served. */
  predicate Accepts<Node>(request: Request<Node>, served: seq<Tai>) {
    var tais := ConvertAll(Pairs(request.tas));
    tais.Some? && AnyServed(tais.value, served)
  }

  function Decide<Node>(conflict: bool, request: Request<Node>, config: Config,
                        plmnSupport: NonEmpty<ConfigPlmnSupport>): Response<Node>
  {
    if conflict then Failure(ConflictingRanId(request.nodeId))
    else if Accepts(request, config.tais) then Success(ToNgapSupportList(plmnSupport), config.amfName, 255)
    else
      match ConvertAll(Pairs(request.tas))
      case None => Failure(ConversionError)
      case Some(tais) => Failure(UnsupportedTais(tais))
  }

  class GnbContext<Node> {
    var globalRanNodeId: Node

    constructor (unset: Node)
      ensures globalRanNodeId == unset
    {
      globalRanNodeId := unset;
    }
  }

  /** One broadcast PLMN of one area. */
  method ConvertPair(tac: Octets, item: BroadcastPlmn) returns (r: Option<SupportedTai>)
    ensures r == Convert(Pair(tac, item))
  {
    var plmnId := DecodePlmn(item.plmn);
    if plmnId == None {
      return None;
    }
    var tai := Tai(plmnId.value, HexString(tac), None);
    var snssais := TransformNonempty(item.slices, ToSbiSnssai);
    r := Some(SupportedTai(tai, snssais));
  }

  /** The inner loop of handle_request: the PLMNs of one area, stopping at the first that does not decode. */
  method ConvertArea(ta: SupportedTa) returns (r: Option<seq<SupportedTai>>)
    ensures r == ConvertAll(PairsOf(ta))
  {
    var tais: seq<SupportedTai> := [];
    ghost var pairs := PairsOf(ta);
    var j := 0;
    while j < |ta.plmns|
      invariant j <= |ta.plmns|
      invariant ConvertAll(pairs[..j]) == Some(tais)
    {
      var next := ConvertPair(ta.tac, ta.plmns[j]);
      AllSomeNext(Convert, pairs, j);
      if next == None {
        return None;
      }
      tais := tais + [next.value];
      j := j + 1;
    }
    assert pairs[..|pairs|] == pairs;
    r := Some(tais);
  }

  /** The outer loop of handle_request, over the areas of the request. */
  method ConvertRequest(tas: seq<SupportedTa>) returns (r: Option<seq<SupportedTai>>)
    ensures r == ConvertAll(Pairs(tas))
  {
    var tais: seq<SupportedTai> := [];
    var i := 0;
    while i < |tas|
      invariant i <= |tas|
      invariant ConvertAll(Pairs(tas[..i])) == Some(tais)
    {
      var area := ConvertArea(tas[i]);
      NextArea(tas, i);
      if area == None {
        return None;
      }
      tais := tais + area.value;
      i := i + 1;
    }
    assert tas[..|tas|] == tas;
    r := Some(tais);
  }

  lemma PairsNext(tas: seq<SupportedTa>, i: nat)
    requires i < |tas|
    ensures Pairs(tas[..i + 1]) == Pairs(tas[..i]) + PairsOf(tas[i])
  {
    var one := [tas[i]];
    assert tas[..i + 1] == tas[..i] + one;
    assert one[1..] == [];
    FlatMapJoin(PairsOf, tas[..i], one);
  }

  lemma PairsCut(tas: seq<SupportedTa>, i: nat)
    requires i <= |tas|
    ensures Pairs(tas) == Pairs(tas[..i]) + Pairs(tas[i..])
  {
    assert tas == tas[..i] + tas[i..];
    FlatMapJoin(PairsOf, tas[..i], tas[i..]);
  }

  lemma NextArea(tas: seq<SupportedTa>, i: nat)
    requires i < |tas| && ConvertAll(Pairs(tas[..i])).Some?
    ensures ConvertAll(PairsOf(tas[i])).Some? ==>
      ConvertAll(Pairs(tas[..i + 1])) == Some(ConvertAll(Pairs(tas[..i])).value + ConvertAll(PairsOf(tas[i])).value)
    ensures ConvertAll(PairsOf(tas[i])) == None ==> ConvertAll(Pairs(tas)) == None
  {
    PairsNext(tas, i);
    PairsCut(tas, i + 1);
    AllSomeJoin(Convert, Pairs(tas[..i]), PairsOf(tas[i]));
    AllSomeJoin(Convert, Pairs(tas[..i + 1]), Pairs(tas[i + 1..]));
  }

  /** handle_request.  `conflict` is the answer of the duplicate check. */
  method HandleRequest<Node>(gnb: GnbContext<Node>, conflict: bool, request: Request<Node>, config: Config,
                             plmnSupport: NonEmpty<ConfigPlmnSupport>)
    returns (response: Response<Node>)
    modifies gnb
    ensures response == Decide(conflict, request, config, plmnSupport)
    ensures gnb.globalRanNodeId == if conflict then old(gnb.globalRanNodeId) else request.nodeId
  {
    if conflict {
      return Failure(ConflictingRanId(request.nodeId));
    }
    gnb.globalRanNodeId := request.nodeId;
    var converted := ConvertRequest(request.tas);
    if converted == None {
      return Failure(ConversionError);
    }
    var tais := converted.value;
    if AnyServed(tais, config.tais) {
      response := Success(ToNgapSupportList(plmnSupport), config.amfName, 255);
    } else {
      response := Failure(UnsupportedTais(tais));
    }
  }

  // ----- what acceptance means, on the octets that were sent

  ghost predicate Sends(tas: seq<SupportedTa>, tac: Octets, item: BroadcastPlmn) {
    exists i :: 0 <= i < |tas| && tas[i].tac == tac && item in tas[i].plmns
  }

  /** The octets of a pair are those of the configured area.  A configured area with a network identifier,
      or whose code is not six lower-case hexadecimal digits, is served by no octets at all. */
  predicate Matches(tac: Octets, plmn: Octets, tai: Tai) {
    && NormaliseFiller(plmn) == EncodePlmn(tai.plmnId)
    && IsLowerHex6(tai.tac) && HexDecode(tai.tac) == tac
    && tai.nid == None
  }

  lemma ConvertsTo(tac: Octets, item: BroadcastPlmn, tai: Tai)
    requires DecodePlmn(item.plmn).Some?
    ensures Convert(Pair(tac, item)).value.tai == tai <==> Matches(tac, item.plmn, tai)
  {
    DecodesTo(item.plmn, tai.plmnId);
    IsHexStringOf(tai.tac, tac);
  }

  lemma SendsPairs(tas: seq<SupportedTa>)
    ensures forall tac, item :: Sends(tas, tac, item) <==> Pair(tac, item) in Pairs(tas)
  {
    forall tac, item ensures Sends(tas, tac, item) <==> Pair(tac, item) in Pairs(tas) {
      PairsAre(tas, Pair(tac, item));
    }
  }

  lemma AllDecode(tas: seq<SupportedTa>)
    ensures ConvertAll(Pairs(tas)).Some? <==>
            forall tac, item :: Sends(tas, tac, item) ==> DecodePlmn(item.plmn).Some?
  {
    SendsPairs(tas);
    var pairs := Pairs(tas);
    AllSomeIs(Convert, pairs);
    assert forall pair :: Convert(pair).Some? <==> DecodePlmn(pair.item.plmn).Some?;
    if ConvertAll(pairs).Some? {
      forall tac, item | Sends(tas, tac, item) ensures DecodePlmn(item.plmn).Some? {
        var i :| 0 <= i < |pairs| && pairs[i] == Pair(tac, item);
      }
    } else {
      var i :| 0 <= i < |pairs| && !Convert(pairs[i]).Some?;
      assert Sends(tas, pairs[i].tac, pairs[i].item);
    }
  }

  /** NG Setup succeeds exactly when the node is not registered, every broadcast PLMN decodes, and some
      sent (PLMN, area) pair is, octet for octet up to the filler, a configured tracking area. */
  lemma AcceptedIff<Node>(conflict: bool, request: Request<Node>, config: Config,
                          plmnSupport: NonEmpty<ConfigPlmnSupport>)
    ensures Decide(conflict, request, config, plmnSupport).Success? <==>
      && !conflict
      && (forall tac, item :: Sends(request.tas, tac, item) ==> DecodePlmn(item.plmn).Some?)
      && (exists tac, item, i :: Sends(request.tas, tac, item) && 0 <= i < |config.tais| &&
            Matches(tac, item.plmn, config.tais[i]))
  {
    AcceptsIff(request, config.tais);
  }

  lemma AcceptsIff<Node>(request: Request<Node>, served: seq<Tai>)
    ensures Accepts(request, served) <==>
      && (forall tac, item :: Sends(request.tas, tac, item) ==> DecodePlmn(item.plmn).Some?)
      && (exists tac, item, i :: Sends(request.tas, tac, item) && 0 <= i < |served| && Matches(tac, item.plmn, served[i]))
  {
    AllDecode(request.tas);
    SendsPairs(request.tas);
    var pairs := Pairs(request.tas);
    if ConvertAll(pairs).Some? {
      FoundIff(request.tas, pairs, ConvertAll(pairs).value, served);
    }
  }

  /** Where a pair is in the flattened list: after all pairs of the areas before it. */
  lemma {:induction false} PairAt(tas: seq<SupportedTa>, i: nat, j: nat)
    requires i < |tas| && j < |tas[i].plmns|
    ensures var at := |Pairs(tas[..i])| + j;
      at < |Pairs(tas)| && Pairs(tas)[at] == Pair(tas[i].tac, tas[i].plmns[j])
  {
    PairsCut(tas, i + 1);
    PairsNext(tas, i);
    assert PairsOf(tas[i])[j] == Pair(tas[i].tac, tas[i].plmns[j]);
  }

  lemma {:induction false} PairCount(tas: seq<SupportedTa>)
    ensures |Pairs(tas)| == Sum(Counts(tas))
  {
    if tas != [] {
      PairCount(tas[1..]);
      assert Counts(tas)[1..] == Counts(tas[1..]);
      assert |PairsOf(tas[0])| == |tas[0].plmns|;
    }
  }

  function Counts(tas: seq<SupportedTa>): seq<nat> {
    MapSeq((ta: SupportedTa) => |ta.plmns|, tas)
  }

  /** What a converted area says of the pair it came from: its PLMN, its code in lower-case hexadecimal, no
      network identifier, and its slices in order. */
  ghost predicate Describes(tai: SupportedTai, pair: Pair) {
    && DecodePlmn(pair.item.plmn) == Some(tai.tai.plmnId)
    && IsLowerHex6(tai.tai.tac) && HexDecode(tai.tai.tac) == pair.tac && tai.tai.nid == None
    && |tai.snssais.Items()| == |pair.item.slices.Items()|
    && forall k :: 0 <= k < |pair.item.slices.Items()| ==>
         ToNgapSnssai(tai.snssais.Items()[k]) == pair.item.slices.Items()[k]
  }

  lemma ConvertDescribes(pair: Pair)
    requires Convert(pair).Some?
    ensures Describes(Convert(pair).value, pair)
  {
    var tai := Convert(pair).value;
    DecodeHexString(pair.tac);
    TransformItems(pair.item.slices, ToSbiSnssai);
    var slices := pair.item.slices.Items();
    forall k | 0 <= k < |slices| ensures ToNgapSnssai(tai.snssais.Items()[k]) == slices[k] {
      SnssaiRoundTrips(ToSbiSnssai(slices[k]), slices[k]);
    }
  }

  /** What a successful response offers: the whole configured list, entry by entry, the configured name and
      the full capacity. */
  lemma SuccessOffers<Node>(conflict: bool, request: Request<Node>, config: Config,
                            plmnSupport: NonEmpty<ConfigPlmnSupport>)
    requires Decide(conflict, request, config, plmnSupport).Success?
    ensures var r, items := Decide(conflict, request, config, plmnSupport), plmnSupport.Items();
      && r.amfName == config.amfName && r.capacity == 255
      && |r.plmnSupport.Items()| == |items|
      && forall i :: 0 <= i < |items| ==> Offers(r.plmnSupport.Items()[i], items[i])
  {
    var r, items := Decide(conflict, request, config, plmnSupport), plmnSupport.Items();
    forall i | 0 <= i < |items|
      ensures |r.plmnSupport.Items()| == |items| && Offers(r.plmnSupport.Items()[i], items[i])
    {
      SupportListRoundTrip(plmnSupport, i);
    }
    SupportListRoundTrip(plmnSupport, 0);
  }

  /** What was sent reads back as what was configured, slices up to letter case. */
  ghost predicate Offers(sent: NgapPlmnSupport, item: ConfigPlmnSupport) {
    && DecodePlmn(sent.plmn) == Some(item.plmnId)
    && |sent.slices.Items()| == |item.snssais.Items()|
    && forall j :: 0 <= j < |item.snssais.Items()| ==>
         ToSbiSnssai(sent.slices.Items()[j]) == LowerSnssai(item.snssais.Items()[j])
  }

  /** Each failure has its own condition, and an unserved request is told all its areas, one per sent pair,
      in order. */
  lemma FailureTells<Node>(conflict: bool, request: Request<Node>, config: Config,
                           plmnSupport: NonEmpty<ConfigPlmnSupport>)
    ensures var r, pairs := Decide(conflict, request, config, plmnSupport), Pairs(request.tas);
      && (r == Failure(ConflictingRanId(request.nodeId)) <==> conflict)
      && (r == Failure(ConversionError) <==>
            !conflict && exists tac, item :: Sends(request.tas, tac, item) && DecodePlmn(item.plmn) == None)
      && (r.Failure? && r.error != ConflictingRanId(request.nodeId) && r.error != ConversionError ==>
            && r.error.UnsupportedTais? && |r.error.tais| == |pairs|
            && forall k :: 0 <= k < |pairs| ==> Describes(r.error.tais[k], pairs[k]))
  {
    var r, pairs := Decide(conflict, request, config, plmnSupport), Pairs(request.tas);
    AllDecode(request.tas);
    if ConvertAll(pairs).Some? {
      AllSomeIs(Convert, pairs);
      var tais := ConvertAll(pairs).value;
      forall k | 0 <= k < |pairs| ensures |tais| == |pairs| && Describes(tais[k], pairs[k]) {
        ConvertDescribes(pairs[k]);
      }
    }
  }

  lemma FoundIff(tas: seq<SupportedTa>, pairs: seq<Pair>, tais: seq<SupportedTai>, served: seq<Tai>)
    requires forall tac, item :: Sends(tas, tac, item) <==> Pair(tac, item) in pairs
    requires ConvertAll(pairs) == Some(tais)
    ensures AnyServed(tais, served) <==>
            (exists tac, item, i :: Sends(tas, tac, item) && 0 <= i < |served| && Matches(tac, item.plmn, served[i]))
  {
    AllSomeIs(Convert, pairs);
    if i, j :| 0 <= i < |served| && 0 <= j < |tais| && tais[j].tai == served[i] {
      assert Convert(pairs[j]) == Some(tais[j]);
      ConvertsTo(pairs[j].tac, pairs[j].item, served[i]);
      assert Sends(tas, pairs[j].tac, pairs[j].item);
    }
    if tac, item, i :| Sends(tas, tac, item) && 0 <= i < |served| && Matches(tac, item.plmn, served[i]) {
      var j :| 0 <= j < |pairs| && pairs[j] == Pair(tac, item);
      assert Convert(pairs[j]) == Some(tais[j]);
      ConvertsTo(tac, item, served[i]);
    }
  }
}
