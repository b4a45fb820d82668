/** Acknowledgement references and the staleness check: src/domain/resolver/resolver-service.ts. */
module AckRefs {
  import opened Prelude
  import opened Strings

  const PREFIX := "ack:"

  datatype Ref = Ref(task: string, doc: string, version: string)

  function Build(r: Ref): string {
    PREFIX + Join(r.task, Join(r.doc, r.version))
  }

  lemma BuildNames(r: Ref)
    ensures Build(r) == "ack:" + r.task + ":" + r.doc + ":" + r.version
  {
    assert Join(r.task, Join(r.doc, r.version)) == r.task + ":" + r.doc + ":" + r.version;
  }

  /** The task ends at the first colon, the version starts behind the last one. */
  function Parse(s: string): Option<Ref> {
    if !(PREFIX <= s) then None
    else
      var rest := s[|PREFIX|..];
      var first := FirstIndex(rest, ':');
      if first == |rest| then None
      else
        var after := rest[first + 1..];
        var last := LastIndex(after, ':');
        if last == -1 then None
        else Some(Ref(rest[..first], after[..last], after[last + 1..]))
  }

  /** What is parsed was built from its parts, with no colon in the task and none in the version. */
  lemma RebuildsParsed(s: string)
    requires Parse(s).Some?
    ensures Build(Parse(s).value) == s
    ensures ':' !in Parse(s).value.task && ':' !in Parse(s).value.version
  {
    var rest := s[|PREFIX|..];
    var first := FirstIndex(rest, ':');
    Rejoins(rest, first);
    Rejoins(rest[first + 1..], LastIndex(rest[first + 1..], ':'));
  }

  lemma AfterPrefix(r: Ref)
    ensures PREFIX <= Build(r) && Build(r)[|PREFIX|..] == Join(r.task, Join(r.doc, r.version))
  {}

  lemma ParsesBuilt(r: Ref)
    requires ':' !in r.task && ':' !in r.version
    ensures Parse(Build(r)) == Some(r)
  {
    AfterPrefix(r);
    SplitsAtFirst(r.task, Join(r.doc, r.version));
    SplitsAtLast(r.doc, r.version);
  }

  /** Parsing gives the three parts back exactly when neither the task nor the version has a colon in
      it; the doc may have any. */
  lemma ParseUndoesBuildIff(r: Ref)
    ensures Parse(Build(r)) == Some(r) <==> ':' !in r.task && ':' !in r.version
  {
    if ':' !in r.task && ':' !in r.version {
      ParsesBuilt(r);
    } else if Parse(Build(r)) == Some(r) {
      RebuildsParsed(Build(r));
    }
  }

  function Colons(s: string): nat {
    multiset(s)[':']
  }

  /** Accepted are the references with the prefix and at least two colons after it. */
  lemma ParsesIff(s: string)
    ensures Parse(s).Some? <==> PREFIX <= s && Colons(s[|PREFIX|..]) >= 2
  {
    if PREFIX <= s {
      var rest := s[|PREFIX|..];
      var first := FirstIndex(rest, ':');
      if first == |rest| {
        NoColons(rest);
      } else {
        var after := rest[first + 1..];
        NoColons(rest[..first]);
        assert rest == rest[..first] + [':'] + after;
        assert Colons(rest) == Colons(rest[..first]) + 1 + Colons(after);
        if LastIndex(after, ':') == -1 {
          NoColons(after);
        } else {
          assert ':' in after;
        }
      }
    }
  }

  lemma NoColons(s: string)
    ensures Colons(s) == 0 <==> ':' !in s
  {}

  // ---------------------------------------------------------------- acknowledged versions

  /** The version acknowledged last for `doc`. */
  function Acknowledged(refs: seq<string>, doc: string): Option<string> {
    if refs == [] then None
    else
      var last := Parse(refs[|refs| - 1]);
      if last.Some? && last.value.doc == doc then Some(last.value.version) else Acknowledged(refs[..|refs| - 1], doc)
  }

  method ParseAckRefs(refs: seq<string>) returns (acked: map<string, string>)
    ensures forall doc :: doc in acked <==> Acknowledged(refs, doc).Some?
    ensures forall doc :: doc in acked ==> Acknowledged(refs, doc) == Some(acked[doc])
  {
    acked := map[];
    for i := 0 to |refs|
      invariant forall doc :: doc in acked <==> Acknowledged(refs[..i], doc).Some?
      invariant forall doc :: doc in acked ==> Acknowledged(refs[..i], doc) == Some(acked[doc])
    {
      assert refs[..i + 1][..i] == refs[..i];
      var parsed := Parse(refs[i]);
      if parsed.Some? {
        acked := acked[parsed.value.doc := parsed.value.version];
      }
    }
    assert refs[..|refs|] == refs;
  }

  /** The newest reference to a document decides, whatever came before it. */
  lemma {:induction false} LastAcknowledgementCounts(refs: seq<string>, i: nat, doc: string)
    requires i < |refs| && Parse(refs[i]).Some? && Parse(refs[i]).value.doc == doc
    requires forall k :: i < k < |refs| ==> Parse(refs[k]).None? || Parse(refs[k]).value.doc != doc
    ensures Acknowledged(refs, doc) == Some(Parse(refs[i]).value.version)
  {
    if i < |refs| - 1 {
      LastAcknowledgementCounts(refs[..|refs| - 1], i, doc);
    }
  }

  lemma {:induction false} NeverAcknowledged(refs: seq<string>, doc: string)
    requires forall k :: 0 <= k < |refs| ==> Parse(refs[k]).None? || Parse(refs[k]).value.doc != doc
    ensures Acknowledged(refs, doc) == None
  {
    if refs != [] {
      NeverAcknowledged(refs[..|refs| - 1], doc);
    }
  }

  // ---------------------------------------------------------------- staleness

  datatype Current = Current(present: bool, version: string)

  datatype Stale = Missing(doc: string, previous: string) | Changed(doc: string, previous: string, current: string)

  /** What is reported about one document, if anything. A document never acknowledged is not stale
      unless it is gone. */
  function Verdict(refs: seq<string>, current: map<string, Current>, doc: string): Option<Stale> {
    var previous := Acknowledged(refs, doc);
    if doc !in current || !current[doc].present then Some(Missing(doc, previous.GetOr("unknown")))
    else if previous.Some? && current[doc].version != previous.value then Some(Changed(doc, previous.value, current[doc].version))
    else None
  }

  /** The document is gone. */
  predicate Gone(current: map<string, Current>, doc: string) {
    doc !in current || !current[doc].present
  }

  /** What there is to say: a document is missing, and was last acknowledged at that version, if ever; or it
      is there at another version than the last acknowledged. */
  predicate Warranted(refs: seq<string>, current: map<string, Current>, v: Stale) {
    match v
    case Missing(doc, previous) => Gone(current, doc) && previous == Acknowledged(refs, doc).GetOr("unknown")
    case Changed(doc, previous, version) =>
      !Gone(current, doc) && version == current[doc].version && Acknowledged(refs, doc) == Some(previous) && previous != version
  }

  function Verdicts(refs: seq<string>, current: map<string, Current>, docs: seq<string>): seq<Stale> {
    if docs == [] then []
    else
      var last := Verdict(refs, current, docs[|docs| - 1]);
      Verdicts(refs, current, docs[..|docs| - 1]) + if last.Some? then [last.value] else []
  }

  /** A document is reported exactly when it was looked at and has gone or changed since its last
      acknowledgement. */
  lemma {:induction false} ReportedIff(refs: seq<string>, current: map<string, Current>, docs: seq<string>, v: Stale)
    ensures v in Verdicts(refs, current, docs) <==> v.doc in docs && Warranted(refs, current, v)
  {
    if docs != [] {
      ReportedIff(refs, current, docs[..|docs| - 1], v);
      assert docs == docs[..|docs| - 1] + [docs[|docs| - 1]];
    }
  }

  /** Documents are reported in the order they were looked at. */
  lemma {:induction false} ReportedInOrder(refs: seq<string>, current: map<string, Current>, docs: seq<string>, more: seq<string>)
    ensures Verdicts(refs, current, docs + more) == Verdicts(refs, current, docs) + Verdicts(refs, current, more)
  {
    if more == [] {
      assert docs + more == docs;
    } else {
      var longer := docs + more;
      ReportedInOrder(refs, current, docs, more[..|more| - 1]);
      assert longer[..|longer| - 1] == docs + more[..|more| - 1] && longer[|longer| - 1] == more[|more| - 1];
    }
  }

  lemma {:induction false} ReportedOnce(refs: seq<string>, current: map<string, Current>, docs: seq<string>)
    requires forall i, j :: 0 <= i < j < |docs| ==> docs[i] != docs[j]
    ensures var r := Verdicts(refs, current, docs);
      forall i, j :: 0 <= i < j < |r| ==> r[i].doc != r[j].doc
  {
    if docs != [] {
      var before := docs[..|docs| - 1];
      ReportedOnce(refs, current, before);
      var r := Verdicts(refs, current, before);
      forall i | 0 <= i < |r| ensures r[i].doc != docs[|docs| - 1] {
        ReportedIff(refs, current, before, r[i]);
        assert r[i] in r;
      }
    }
  }

  method CheckDocs(ghost refs: seq<string>, acked: map<string, string>, docs: seq<string>, current: map<string, Current>)
    returns (stale: seq<Stale>)
    requires forall doc :: doc in acked <==> Acknowledged(refs, doc).Some?
    requires forall doc :: doc in acked ==> Acknowledged(refs, doc) == Some(acked[doc])
    ensures stale == Verdicts(refs, current, docs)
  {
    stale := [];
    for i := 0 to |docs|
      invariant stale == Verdicts(refs, current, docs[..i])
    {
      assert docs[..i + 1][..i] == docs[..i];
      var doc := docs[i];
      if doc !in current || !current[doc].present {
        stale := stale + [Missing(doc, if doc in acked then acked[doc] else "unknown")];
      } else if doc in acked && current[doc].version != acked[doc] {
        stale := stale + [Changed(doc, acked[doc], current[doc].version)];
      }
    }
    assert docs[..|docs|] == docs;
  }

  /** Documents asked about get their verdicts in that order; without a question every acknowledged one
      is looked at, once. Without any reference nothing is stale, whatever was asked. */
  method CheckStale(refs: seq<string>, asked: Option<seq<string>>, current: map<string, Current>) returns (stale: seq<Stale>)
    ensures refs == [] ==> stale == []
    ensures refs != [] ==> forall v :: v in stale <==>
      && (if asked.Some? then v.doc in asked.value else Acknowledged(refs, v.doc).Some?)
      && Warranted(refs, current, v)
    ensures refs != [] && asked.Some? ==> stale == Verdicts(refs, current, asked.value)
    ensures asked.None? ==> forall i, j :: 0 <= i < j < |stale| ==> stale[i].doc != stale[j].doc
  {
    if |refs| == 0 {
      return [];
    }
    var acked := ParseAckRefs(refs);
    var docs: seq<string>;
    if asked.Some? {
      docs := asked.value;
    } else {
      docs := Enumerate(acked.Keys);
    }
    stale := CheckDocs(refs, acked, docs, current);
    forall v ensures v in stale <==> v.doc in docs && Warranted(refs, current, v) {
      ReportedIff(refs, current, docs, v);
    }
    if asked.None? {
      ReportedOnce(refs, current, docs);
    }
  }
}
