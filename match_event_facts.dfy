/** What the match-event pipeline guarantees, stated over the `...Run` functions that the
    methods of `MatchEventService` are proved to follow: which calls happen, how many, in which
    order, and what the answer holds. */
module MatchEventFacts {
  import opened Python
  import opened Text
  import opened MatchEvents
  import FeatureFlags
  import Directus

  /** The kinds of calls, for counting them. */
  datatype Kind = SaveKind | LookupKind | CardKind | StatsKind | GoalKind | RowKind | DelayKind

  function KindOf(c: Call): Kind
  {
    match c
    case SaveLivescore(_, _) => SaveKind
    case LookupEventType(_) => LookupKind
    case LookupTeam(_) => LookupKind
    case LookupPlayer(_) => LookupKind
    case LookupQualifier(_) => LookupKind
    case CardImage(_, _, _) => CardKind
    case MatchStats(_) => StatsKind
    case GoalImage(_, _, _) => GoalKind
    case AppendRow(_, _) => RowKind
    case Delay => DelayKind
  }

  /** How many calls of a kind a log holds. */
  function Count(cs: seq<Call>, k: Kind): nat
    decreases |cs|
  {
    if |cs| == 0 then 0 else (if KindOf(cs[0]) == k then 1 else 0) + Count(cs[1..], k)
  }

  lemma {:induction false} CountAppend(a: seq<Call>, b: seq<Call>, k: Kind)
    ensures Count(a + b, k) == Count(a, k) + Count(b, k)
    decreases |a|
  {
    if |a| > 0 {
      assert (a + b)[1..] == a[1..] + b;
      CountAppend(a[1..], b, k);
    } else {
      assert a + b == b;
    }
  }

  /** A log without calls of a kind has none at any position. */
  lemma {:induction false} CountZero(cs: seq<Call>, k: Kind)
    ensures Count(cs, k) == 0 <==> forall i :: 0 <= i < |cs| ==> KindOf(cs[i]) != k
    decreases |cs|
  {
    if |cs| > 0 {
      CountZero(cs[1..], k);
      assert forall i :: 1 <= i < |cs| ==> cs[i] == cs[1..][i - 1];
    }
  }

  // ---------------------------------------------------------------------------------------------
  // Qualifiers

  /** The qualifier loop only makes card images and qualifier lookups. */
  lemma {:induction false} QualifiersCallKinds(s: Setup, qs: seq<Value>, data: EventData, k: Kind)
    requires k != CardKind && k != LookupKind
    ensures Count(QualifiersRun(s, qs, data).calls, k) == 0
    decreases |qs|
  {
    if |qs| > 0 {
      var step := QualifierStep(s, qs[0], data);
      StepCallKinds(s, qs[0], data, k);
      if step.out.Ok? {
        QualifiersCallKinds(s, qs[1..], data, k);
        CountAppend(step.calls, QualifiersRun(s, qs[1..], data).calls, k);
      }
    }
  }

  lemma {:induction false} StepCallKinds(s: Setup, q: Value, data: EventData, k: Kind)
    requires k != CardKind && k != LookupKind
    ensures Count(QualifierStep(s, q, data).calls, k) == 0
  {
    if q.Obj? && Get(q.fields, "qualifierId") != Null {
      var id := Get(q.fields, "qualifierId");
      var handled := if DispatchesCard(s, id, data) then CardCalls(id, Get(q.fields, "value"), data) else [];
      CountAppend(handled, [LookupQualifier(id)], k);
    }
  }

  lemma {:induction false} ProcessQualifiersCallKinds(s: Setup, qualifiers: Value, data: EventData, k: Kind)
    requires k != CardKind && k != LookupKind
    ensures Count(ProcessQualifiersRun(s, qualifiers, data).calls, k) == 0
  {
    if Iterate(qualifiers).Ok? {
      QualifiersCallKinds(s, Iterate(qualifiers).value, data, k);
    }
  }

  /** The card images the qualifier step asks for, stated without the handler map: one image for
      a qualifier equal to 31 (yellow) or 33 (red) of a card event (type 17) outside the live
      score feed, when the event has a player. Equality is Python's, so 31.0 is 31. */
  function ExpectedCards(id: Value, data: EventData): seq<Call>
  {
    if (IsId(id, 31) || IsId(id, 33)) && IsId(data.typeId, 17) && data.feedName != Str("liveScore") &&
       data.player.Some? && data.player.value != []
    then [CardImage(if IsId(id, 31) then "yellow" else "red", Get(data.player.value, "photo"), Get(data.player.value, "name"))]
    else []
  }

  /** Qualifiers that equal neither 31 nor 33 never ask for a card image. */
  lemma {:induction false} OnlyCardQualifiers(id: Value, data: EventData)
    requires !IsId(id, 31) && !IsId(id, 33)
    ensures ExpectedCards(id, data) == []
  {
  }

  /** With the service's handler map, a qualifier with a hashable id makes exactly the expected
      card images and then one lookup of its name, and contributes "<name> (<value>)". */
  lemma {:induction false} CardDispatch(s: Setup, q: Fields, data: EventData)
    requires s.handlers == DefaultHandlers
    requires Get(q, "qualifierId") != Null && Hashable(Get(q, "qualifierId"))
    ensures var id := Get(q, "qualifierId");
            QualifierStep(s, Obj(q), data).calls == ExpectedCards(id, data) + [LookupQualifier(id)]
    ensures QualifierStep(s, Obj(q), data).out ==
            Ok(Some(QualifierPart(s.catalog.qualifiers(Get(q, "qualifierId")), Get(q, "value"))))
  {
  }

  /** A yellow card qualifier sent as the float 31.0 asks for the same image as 31. */
  lemma {:induction false} FloatCardId(s: Setup, q: Fields, data: EventData)
    requires s.handlers == DefaultHandlers
    requires Get(q, "qualifierId") == Float("31.0")
    requires IsId(data.typeId, 17) && data.feedName != Str("liveScore") && Present(data.player)
    ensures QualifierStep(s, Obj(q), data).calls ==
            [CardImage("yellow", Get(data.player.value, "photo"), Get(data.player.value, "name")), LookupQualifier(Float("31.0"))]
  {
    IdsCompareAsNumbers(31);
    assert IntToString(31) + ".0" == "31.0";
    CardDispatch(s, q, data);
  }

  /** A list or dict id cannot be looked up in the handler map: the step raises `TypeError`
      before any call. */
  lemma {:induction false} UnhashableIdRaises(s: Setup, q: Fields, data: EventData)
    requires Get(q, "qualifierId").Arr? || Get(q, "qualifierId").Obj?
    ensures QualifierStep(s, Obj(q), data) == Run(Raise(TypeError), [])
  {
  }

  /** A qualifier whose id is `None` is skipped: no call, no text. */
  lemma {:induction false} QualifierWithoutId(s: Setup, q: Fields, data: EventData)
    requires Get(q, "qualifierId") == Null
    ensures QualifierStep(s, Obj(q), data) == Run(Ok(None), [])
  {
  }

  /** No card is ever handled for the live score feed or for an event that is not a card. */
  lemma {:induction false} NoCardsOutsideCardEvents(s: Setup, qualifiers: Value, data: EventData)
    requires IsLivescore(data.feedName) || !IsId(data.typeId, CardEventTypeId)
    ensures Count(ProcessQualifiersRun(s, qualifiers, data).calls, CardKind) == 0
  {
    if Iterate(qualifiers).Ok? {
      NoCardsInLoop(s, Iterate(qualifiers).value, data);
    }
  }

  lemma {:induction false} NoCardsInLoop(s: Setup, qs: seq<Value>, data: EventData)
    requires IsLivescore(data.feedName) || !IsId(data.typeId, CardEventTypeId)
    ensures Count(QualifiersRun(s, qs, data).calls, CardKind) == 0
    decreases |qs|
  {
    if |qs| > 0 {
      var step := QualifierStep(s, qs[0], data);
      if qs[0].Obj? && Get(qs[0].fields, "qualifierId") != Null && Hashable(Get(qs[0].fields, "qualifierId")) {
        assert step.calls == [LookupQualifier(Get(qs[0].fields, "qualifierId"))];
      }
      if step.out.Ok? {
        NoCardsInLoop(s, qs[1..], data);
        CountAppend(step.calls, QualifiersRun(s, qs[1..], data).calls, CardKind);
      }
    }
  }

  /** The parts a list of dict qualifiers contributes: one per qualifier with an id, in order. */
  function SummaryParts(s: Setup, qs: seq<Fields>): seq<string>
    decreases |qs|
  {
    if |qs| == 0 then []
    else
      var id := Get(qs[0], "qualifierId");
      (if id == Null then []
       else [QualifierPart(s.catalog.qualifiers(id),
                           Get(qs[0], "value"))])
      + SummaryParts(s, qs[1..])
  }

  /** Every qualifier's id can be hashed. */
  predicate HashableIds(qs: seq<Fields>)
  {
    forall k :: 0 <= k < |qs| ==> Hashable(Get(qs[k], "qualifierId"))
  }

  /** A list of dict qualifiers raises exactly when one of their ids is a list or a dict, and
      otherwise the summary is its parts joined by ", ". */
  lemma {:induction false} QualifierSummary(s: Setup, qs: seq<Fields>, data: EventData)
    ensures ProcessQualifiersRun(s, Arr(seq(|qs|, k requires 0 <= k < |qs| => Obj(qs[k]))), data).out ==
            if HashableIds(qs) then Ok(Join(SummaryParts(s, qs), ", ")) else Raise(TypeError)
  {
    var vs := seq(|qs|, k requires 0 <= k < |qs| => Obj(qs[k]));
    SummaryLoop(s, qs, vs, data);
  }

  lemma {:induction false} SummaryLoop(s: Setup, qs: seq<Fields>, vs: seq<Value>, data: EventData)
    requires |vs| == |qs| && forall k :: 0 <= k < |qs| ==> vs[k] == Obj(qs[k])
    ensures QualifiersRun(s, vs, data).out == if HashableIds(qs) then Ok(SummaryParts(s, qs)) else Raise(TypeError)
    decreases |qs|
  {
    if |qs| > 0 {
      SummaryLoop(s, qs[1..], vs[1..], data);
      HashableIdsCons(qs);
    }
  }

  lemma {:induction false} HashableIdsCons(qs: seq<Fields>)
    requires |qs| > 0
    ensures HashableIds(qs) <==> Hashable(Get(qs[0], "qualifierId")) && HashableIds(qs[1..])
  {
    if Hashable(Get(qs[0], "qualifierId")) && HashableIds(qs[1..]) {
      forall k | 0 <= k < |qs|
        ensures Hashable(Get(qs[k], "qualifierId"))
      {
        if k > 0 { assert qs[k] == qs[1..][k - 1]; }
      }
    }
    if HashableIds(qs) {
      forall k | 0 <= k < |qs| - 1
        ensures Hashable(Get(qs[1..][k], "qualifierId"))
      {
        assert qs[1..][k] == qs[k + 1];
      }
    }
  }

  /** The qualifiers of the card fixture of the repository's test script. */
  const Fixture35: Fields := [("id", Int(1510080383)), ("qualifierId", Int(35)), ("value", Str("NULL"))]
  const Fixture31: Fields := [("id", Int(1510080384)), ("qualifierId", Int(31)), ("value", Str("NULL"))]

  function QualifierName(s: Setup, n: int): Option<Fields>
  {
    s.catalog.qualifiers(Int(n))
  }

  /** Two qualifiers that each contribute a part: both parts, in order, and both steps' calls. */
  lemma {:induction false} TwoQualifiers(s: Setup, a: Value, b: Value, data: EventData)
    requires QualifierStep(s, a, data).out.Ok? && QualifierStep(s, a, data).out.value.Some?
    requires QualifierStep(s, b, data).out.Ok? && QualifierStep(s, b, data).out.value.Some?
    ensures ProcessQualifiersRun(s, Arr([a, b]), data) ==
            Run(Ok(QualifierStep(s, a, data).out.value.value + ", " + QualifierStep(s, b, data).out.value.value),
                QualifierStep(s, a, data).calls + QualifierStep(s, b, data).calls)
  {
    var qs := [a, b];
    var sa, sb := QualifierStep(s, a, data), QualifierStep(s, b, data);
    var one := [b];
    assert one[1..] == [];
    var empty := QualifiersRun(s, one[1..], data);
    assert empty == Run(Ok([]), []);
    assert one[0] == b;
    var r1 := QualifiersRun(s, one, data);
    assert r1 == Prepend([sb.out.value.value], sb.calls, empty);
    assert qs[1..] == one;
    assert qs[0] == a;
    var r2 := QualifiersRun(s, qs, data);
    assert r2 == Prepend([sa.out.value.value], sa.calls, r1);
    assert r2.out.value == [sa.out.value.value, sb.out.value.value];
    assert r2.calls == sa.calls + sb.calls;
    var parts := [sa.out.value.value, sb.out.value.value];
    assert parts[1..] == [sb.out.value.value];
    assert Join(parts, ", ") == sa.out.value.value + ", " + sb.out.value.value;
    assert Iterate(Arr(qs)) == Ok(qs);
  }

  /** The summary of that fixture: qualifier 35 then qualifier 31, both with value "NULL".
      Qualifier 31 of a card event asks for the yellow card image before its lookup. */
  lemma {:induction false} TestFixtureSummary(s: Setup, data: EventData)
    requires s.handlers == DefaultHandlers
    requires data.typeId == Int(17) && data.feedName == Str("matchEvent")
    ensures ProcessQualifiersRun(s, Arr([Obj(Fixture35), Obj(Fixture31)]), data).out ==
            Ok(QualifierPart(QualifierName(s, 35), Str("NULL")) + ", " + QualifierPart(QualifierName(s, 31), Str("NULL")))
    ensures ProcessQualifiersRun(s, Arr([Obj(Fixture35), Obj(Fixture31)]), data).calls ==
            [LookupQualifier(Int(35))] + ExpectedCards(Int(31), data) + [LookupQualifier(Int(31))]
  {
    OnlyCardQualifiers(Int(35), data);
    FixtureFields();
    FixtureStep(s, data, Fixture35, 35);
    FixtureStep(s, data, Fixture31, 31);
    TwoQualifiers(s, Obj(Fixture35), Obj(Fixture31), data);
    AppendEmpty([LookupQualifier(Int(35))]);
    AppendAssoc([LookupQualifier(Int(35))], ExpectedCards(Int(31), data), [LookupQualifier(Int(31))]);
  }

  lemma {:induction false} FixtureStep(s: Setup, data: EventData, q: Fields, n: int)
    requires s.handlers == DefaultHandlers
    requires Get(q, "qualifierId") == Int(n) && Get(q, "value") == Str("NULL")
    ensures QualifierStep(s, Obj(q), data) ==
            Run(Ok(Some(QualifierPart(QualifierName(s, n), Str("NULL")))), ExpectedCards(Int(n), data) + [LookupQualifier(Int(n))])
  {
    CardDispatch(s, q, data);
  }

  lemma {:induction false} FixtureFields()
    ensures Get(Fixture35, "qualifierId") == Int(35) && Get(Fixture35, "value") == Str("NULL")
    ensures Get(Fixture31, "qualifierId") == Int(31) && Get(Fixture31, "value") == Str("NULL")
  {
    GetAt(Fixture35, 1, "qualifierId");
    GetAt(Fixture35, 2, "value");
    GetAt(Fixture31, 1, "qualifierId");
    GetAt(Fixture31, 2, "value");
  }

  /** With no name in the catalogue the summary reads "Unknown (NULL), Unknown (NULL)". */
  lemma {:induction false} TestFixtureUnknownNames(s: Setup, data: EventData, svc: Directus.DirectusService, server: Directus.Server)
    requires s.handlers == DefaultHandlers
    requires data.typeId == Int(17) && data.feedName == Str("matchEvent")
    requires s.catalog.qualifiers == Directus.QualifierLookup(svc, server)
    requires forall url, query :: server(url, query) == []
    ensures ProcessQualifiersRun(s, Arr([Obj(Fixture35), Obj(Fixture31)]), data).out == Ok("Unknown (NULL), Unknown (NULL)")
  {
    TestFixtureSummary(s, data);
    assert QualifierName(s, 35) == None && QualifierName(s, 31) == None;
    UnknownNullText();
  }

  lemma {:induction false} UnknownNullText()
    ensures QualifierPart(None, Str("NULL")) + ", " + QualifierPart(None, Str("NULL")) == "Unknown (NULL), Unknown (NULL)"
  {
    assert PyStr(Str("NULL")) == "NULL";
    var u := "Unknown" + " (" + "NULL" + ")";
    assert u == "Unknown (NULL)";
    assert u + ", " + u == "Unknown (NULL), Unknown (NULL)";
  }
}
