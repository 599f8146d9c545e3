/** From the payloads a run has ingested to what its positions settled for: the first answer of a
    market is the one that counts (core/sources/kalshi/resolution.py, core/sources/persistence.py,
    core/ledger/writer.py). */
module SettledAnswers {
  import opened Lists
  import opened Rounding
  import opened Domain
  import opened LedgerSpec
  import opened Invariants
  import opened Shared
  import opened ResolutionTick
  import opened Runs
  import opened RunTheorems

  type Delivery = (string, Option<Payload>)

  /** The payloads of a run, in the order in which they came. */
  function Delivered(commands: seq<Command>): seq<Delivery> {
    if |commands| == 0 then []
    else
      var c := commands[|commands| - 1];
      Delivered(commands[..|commands| - 1]) + if c.Ingest? then c.payloads else []
  }

  /** The first payload of this market that says how it settled. */
  predicate FirstAnswer(payloads: seq<Delivery>, ticker: string, i: nat) {
    && i < |payloads| && payloads[i].0 == ticker && Decodable(payloads[i].1)
    && forall j :: 0 <= j < i && payloads[j].0 == ticker ==> !Decodable(payloads[j].1)
  }

  function Stored(payloads: seq<Delivery>): map<string, Resolution> { KeepFirst(map[], Collect(payloads, Decode())) }

  lemma {:induction false} KeepFirstConcat(
    stored: map<string, Resolution>, first: seq<(string, Resolution)>, second: seq<(string, Resolution)>)
    ensures KeepFirst(stored, first + second) == KeepFirst(KeepFirst(stored, first), second)
    decreases |second|
  {
    if |second| == 0 {
      assert first + second == first;
    } else {
      var last := |second| - 1;
      assert (first + second)[..|first + second| - 1] == first + second[..last];
      KeepFirstConcat(stored, first, second[..last]);
    }
  }

  /** The resolution table holds what the payloads decode to, the first of each market. */
  lemma {:induction false} RunStores(commands: seq<Command>)
    ensures Run(EMPTY_WORLD, commands).shared.resolutions == Stored(Delivered(commands))
    decreases |commands|
  {
    if |commands| == 0 {
    } else {
      var front, c := commands[..|commands| - 1], commands[|commands| - 1];
      RunStores(front);
      if c.Ingest? {
        CollectConcat(Delivered(front), c.payloads, Decode());
        KeepFirstConcat(map[], Collect(Delivered(front), Decode()), Collect(c.payloads, Decode()));
      } else {
        assert Delivered(front) + [] == Delivered(front);
      }
    }
  }

  lemma StoredAppend(front: seq<Delivery>, x: Delivery)
    ensures var drafted, before := ParseMarketResult(x.1), Stored(front);
            Stored(front + [x]) == if drafted.None? || x.0 in before then before else before[x.0 := drafted.value]
  {
    CollectAppend(front, x, Decode());
    var drafts := Collect(front, Decode());
    if Decode()(x).Some? { assert (drafts + [Decode()(x).value])[..|drafts|] == drafts; }
  }

  /** A market has a resolution exactly when some payload answered, and it is that of the first. */
  lemma {:induction false} FirstAnswerIsStored(payloads: seq<Delivery>, ticker: string) returns (i: nat)
    ensures ticker in Stored(payloads) <==> FirstAnswer(payloads, ticker, i)
    ensures ticker in Stored(payloads) ==> Some(Stored(payloads)[ticker]) == ParseMarketResult(payloads[i].1)
    ensures ticker !in Stored(payloads) ==> forall k :: !FirstAnswer(payloads, ticker, k)
    decreases |payloads|
  {
    if |payloads| == 0 {
      i := 0;
    } else {
      var front, x := payloads[..|payloads| - 1], payloads[|payloads| - 1];
      assert payloads == front + [x];
      StoredAppend(front, x);
      DecodingIff(x.1);
      i := FirstAnswerIsStored(front, ticker);
      if ticker !in Stored(front) {
        NoneBefore(front, ticker);
        i := |front|;
      }
      assert forall k :: 0 <= k < |front| && FirstAnswer(payloads, ticker, k) ==> FirstAnswer(front, ticker, k);
    }
  }

  /** Without a first answer there is none at all. */
  lemma {:induction false} NoneBefore(payloads: seq<Delivery>, ticker: string)
    requires forall k :: !FirstAnswer(payloads, ticker, k)
    ensures forall k :: 0 <= k < |payloads| && payloads[k].0 == ticker ==> !Decodable(payloads[k].1)
    decreases |payloads|
  {
    if |payloads| == 0 {
    } else {
      var front := payloads[..|payloads| - 1];
      forall k ensures !FirstAnswer(front, ticker, k) {
        if FirstAnswer(front, ticker, k) { assert FirstAnswer(payloads, ticker, k); }
      }
      NoneBefore(front, ticker);
      forall k | 0 <= k < |payloads| && payloads[k].0 == ticker ensures !Decodable(payloads[k].1) {
        if k < |front| {
          assert front[k] == payloads[k];
        } else if Decodable(payloads[k].1) {
          assert FirstAnswer(payloads, ticker, k);
        }
      }
    }
  }

  /** The result of a position when its market answers with this word. */
  function ResultFor(p: Position, word: string): int {
    if word == "" then 0
    else if (word == "yes") == p.side.Yes? then 100 * p.qty - p.costBasis
    else -p.costBasis
  }

  lemma WordDecides(p: Position, payload: Option<Payload>)
    requires p.qty >= 0 && Decodable(payload)
    ensures ParseMarketResult(payload).Some?
    ensures PnlAt(p, ParseMarketResult(payload).value) == ResultFor(p, payload.value.result.value)
  {
    DecodingIff(payload);
    assert |"yes"| != |"no"| && |"yes"| != |""| && |"no"| != |""|;
    WholePayouts(p);
  }

  /** A contract pays a dollar or nothing, and a void one returns its cost. */
  lemma WholePayouts(p: Position)
    requires p.qty >= 0
    ensures PnlAt(p, Resolution(SettledYes, 1.0)) == (if p.side.Yes? then 100 * p.qty else 0) - p.costBasis
    ensures PnlAt(p, Resolution(SettledNo, 0.0)) == (if p.side.Yes? then 0 else 100 * p.qty) - p.costBasis
    ensures PnlAt(p, Resolution(Void, 0.0)) == 0
  {
    assert Notional(p.qty, 1.0) == (100 * p.qty) as real && Notional(p.qty, 0.0) == 0.0;
    HalfUpUnique(Notional(p.qty, 1.0), 100 * p.qty);
  }

  /** On every run a resolved position has realized exactly what the first answer of its market
      gives it: the whole dollar per contract, nothing, or its cost back. */
  lemma FirstAnswerDecides(commands: seq<Command>, id: nat) returns (i: nat)
    requires var l := Run(EMPTY_WORLD, commands).ledger; id < |l.positions| && l.positions[id].status.Resolved?
    ensures var p, payloads := Run(EMPTY_WORLD, commands).ledger.positions[id], Delivered(commands);
            && FirstAnswer(payloads, p.ticker, i)
            && p.realized == Some(ResultFor(p, payloads[i].1.value.result.value))
  {
    var w := Run(EMPTY_WORLD, commands);
    EveryRunIsSound(commands);
    RunStores(commands);
    var p := w.ledger.positions[id];
    assert SettledFrom(p, w.shared.resolutions);
    assert PositionSound(w.ledger.strategies.Keys, w.ledger.cash, id, p);
    i := FirstAnswerIsStored(Delivered(commands), p.ticker);
    WordDecides(p, Delivered(commands)[i].1);
  }

  /** In every world of every run the resolution tick settles a position exactly when it is open
      and its market has answered, at what the first answer gives. */
  lemma TickSettlesAnswered(commands: seq<Command>, order: seq<nat>, now: int, id: nat, i: nat)
    requires var l := Run(EMPTY_WORLD, commands).ledger; EnumeratesOpen(l, order) && id < |l.positions|
    ensures var w := Run(EMPTY_WORLD, commands);
            var l', payloads := SettleDue(w.ledger, order, w.shared.resolutions, now), Delivered(commands);
            var p := w.ledger.positions[id];
            && |l'.positions| == |w.ledger.positions|
            && (l'.positions[id] != p <==> p.status.Open? && exists k :: FirstAnswer(payloads, p.ticker, k))
            && (p.status.Open? && FirstAnswer(payloads, p.ticker, i) ==>
                  l'.positions[id].realized == Some(ResultFor(p, payloads[i].1.value.result.value)))
  {
    var w := Run(EMPTY_WORLD, commands);
    var p, payloads := w.ledger.positions[id], Delivered(commands);
    RunsSettleExactlyTheDue(commands, order, now, id);
    EveryRunIsSound(commands);
    assert PositionSound(w.ledger.strategies.Keys, w.ledger.cash, id, p);
    RunStores(commands);
    var k := FirstAnswerIsStored(payloads, p.ticker);
    if FirstAnswer(payloads, p.ticker, i) {
      assert i == k;
      WordDecides(p, payloads[i].1);
    }
  }
}
