/** Admission of file streams: a global cap, a quota for each bot, and the counters behind them. */
module StreamQuota {
  import opened Common
  import opened ByteRange

  // --- whose stream it is ---

  const MAX_USER_ID := 0x40_0000_0000_0000

  predicate ValidToken(token: string) {
    && token != "" && token[0] != '0' && |token| <= 80 && '/' !in token && ':' in token
    && var id := ToIntegerSafe(token[..Find(token, ':')]);
    && id.Some? && 0 < id.value < MAX_USER_ID
  }

  function TokenKey(token: string, isTest: bool): string {
    token + if isTest then "/test" else ""
  }

  /** A bot's production and test streams, and those of different bots, never share a counter. */
  lemma KeyInjective(token: string, isTest: bool, other: string, otherTest: bool)
    requires ValidToken(token) && ValidToken(other) && TokenKey(token, isTest) == TokenKey(other, otherTest)
    ensures token == other && isTest == otherTest
  {
    var key := TokenKey(token, isTest);
    assert isTest ==> key[|token|] == '/';
    assert otherTest ==> key[|other|] == '/';
    assert forall i | 0 <= i < |token| :: key[i] == token[i] && token[i] in token;
    assert forall i | 0 <= i < |other| :: key[i] == other[i] && other[i] in other;
    assert isTest == otherTest;
    assert token == key[..|token|] && other == key[..|other|];
  }

  // --- the counters ---

  datatype Quota = Quota(ids: set<int>, tokenOf: map<int, string>, countOf: map<string, int>)

  function Count(q: Quota, key: string): int {
    if key in q.countOf then q.countOf[key] else 0
  }

  function StreamsOf(q: Quota, key: string): set<int> {
    set s | s in q.tokenOf && q.tokenOf[s] == key
  }

  function PerBot(maxConnections: int): int {
    if maxConnections / 4 > 1 then maxConnections / 4 else 1
  }

  predicate Agrees(q: Quota, key: string) {
    Count(q, key) == |StreamsOf(q, key)|
  }

  /** Each counter is the number of that key's active streams and never zero, and no limit is
      exceeded. */
  ghost predicate Inv(maxConnections: int, q: Quota) {
    && q.ids == q.tokenOf.Keys && |q.ids| <= maxConnections
    && (forall key :: Agrees(q, key))
    && (forall key | key in q.countOf :: 0 < q.countOf[key] <= PerBot(maxConnections))
  }

  /** What is decided elsewhere: a disk emergency, shutdown, whether streaming is enabled, whether
      this server handles the bot, the file identifier, and the flood control of new bots. */
  datatype Gate = Gate(emergency: bool, closing: bool, enabled: bool, inRange: bool, fileIdOk: bool, floodOk: bool)

  /** The status code of a refusal, 0 for an admission. */
  function Refusal(maxConnections: int, q: Quota, token: string, isTest: bool, gate: Gate): int {
    if gate.emergency then 507
    else if gate.closing then 503
    else if !gate.enabled then 404
    else if |q.ids| >= maxConnections then 429
    else if !ValidToken(token) then 401
    else if !gate.inRange then 421
    else if !gate.fileIdOk then 400
    else if Count(q, TokenKey(token, isTest)) >= PerBot(maxConnections) then 429
    else if !gate.floodOk then 429
    else 0
  }

  function Admitted(q: Quota, stream: int, key: string): Quota {
    Quota(q.ids + {stream}, q.tokenOf[stream := key], q.countOf[key := Count(q, key) + 1])
  }

  function Released(q: Quota, stream: int): Quota {
    var ids := q.ids - {stream};
    if stream !in q.tokenOf then q.(ids := ids)
    else
      Quota(ids, q.tokenOf - {stream}, Lowered(q.countOf, q.tokenOf[stream]))
  }

  function Lowered(countOf: map<string, int>, key: string): map<string, int> {
    if key !in countOf then countOf
    else if countOf[key] <= 1 then countOf - {key}
    else countOf[key := countOf[key] - 1]
  }

  lemma AdmitAgrees(q: Quota, stream: int, key: string, k: string)
    requires Agrees(q, k) && stream !in q.tokenOf
    ensures Agrees(Admitted(q, stream, key), k)
  {
    var n := Admitted(q, stream, key);
    assert StreamsOf(n, k) == if k == key then StreamsOf(q, k) + {stream} else StreamsOf(q, k);
  }

  lemma AdmitKey(maxConnections: int, q: Quota, stream: int, key: string)
    requires Inv(maxConnections, q) && stream !in q.ids && |q.ids| < maxConnections
    requires Count(q, key) < PerBot(maxConnections)
    ensures Inv(maxConnections, Admitted(q, stream, key))
  {
    forall k ensures Agrees(Admitted(q, stream, key), k) {
      assert Agrees(q, k);
      AdmitAgrees(q, stream, key, k);
    }
  }

  lemma AdmitKeeps(maxConnections: int, q: Quota, stream: int, token: string, isTest: bool, gate: Gate)
    requires Inv(maxConnections, q) && stream !in q.ids && Refusal(maxConnections, q, token, isTest, gate) == 0
    ensures Inv(maxConnections, Admitted(q, stream, TokenKey(token, isTest)))
  {
    AdmitKey(maxConnections, q, stream, TokenKey(token, isTest));
  }

  lemma ReleaseAgrees(q: Quota, stream: int, k: string)
    requires Agrees(q, k) && stream in q.tokenOf
    ensures Agrees(Released(q, stream), k)
  {
    var n := Released(q, stream);
    if k == q.tokenOf[stream] {
      assert StreamsOf(n, k) == StreamsOf(q, k) - {stream};
      assert stream in StreamsOf(q, k);
    } else {
      assert StreamsOf(n, k) == StreamsOf(q, k);
    }
  }

  lemma ReleaseKeeps(maxConnections: int, q: Quota, stream: int)
    requires Inv(maxConnections, q)
    ensures Inv(maxConnections, Released(q, stream))
    ensures stream !in q.tokenOf ==> Released(q, stream) == q
  {
    if stream in q.tokenOf {
      forall k ensures Agrees(Released(q, stream), k) {
        assert Agrees(q, k);
        ReleaseAgrees(q, stream, k);
      }
    } else {
      assert q.ids - {stream} == q.ids;
    }
  }

  // --- runs ---

  datatype Event = Ask(stream: int, token: string, isTest: bool, gate: Gate) | End(stream: int)

  /** A stream asks under an identifier of its own; anything may be released at any time. */
  predicate Allowed(q: Quota, e: Event) {
    e.Ask? ==> e.stream !in q.ids
  }

  function Step(maxConnections: int, q: Quota, e: Event): Quota {
    match e
    case Ask(stream, token, isTest, gate) =>
      if Refusal(maxConnections, q, token, isTest, gate) == 0 then Admitted(q, stream, TokenKey(token, isTest)) else q
    case End(stream) => Released(q, stream)
  }

  predicate AllAllowed(maxConnections: int, q: Quota, es: seq<Event>)
    decreases |es|
  {
    es == [] || (Allowed(q, es[0]) && AllAllowed(maxConnections, Step(maxConnections, q, es[0]), es[1..]))
  }

  function Run(maxConnections: int, q: Quota, es: seq<Event>): Quota
    decreases |es|
  {
    if es == [] then q else Run(maxConnections, Step(maxConnections, q, es[0]), es[1..])
  }

  /** After any admissions and releases, including those of refused or released streams, every
      counter agrees with the streams and every limit holds. */
  lemma {:induction false} CountersAgree(maxConnections: int, q: Quota, es: seq<Event>)
    requires Inv(maxConnections, q) && AllAllowed(maxConnections, q, es)
    ensures Inv(maxConnections, Run(maxConnections, q, es))
    decreases |es|
  {
    if es != [] {
      match es[0] {
        case Ask(stream, token, isTest, gate) =>
          if Refusal(maxConnections, q, token, isTest, gate) == 0 {
            AdmitKeeps(maxConnections, q, stream, token, isTest, gate);
          }
        case End(stream) => ReleaseKeeps(maxConnections, q, stream);
      }
      CountersAgree(maxConnections, Step(maxConnections, q, es[0]), es[1..]);
    }
  }

  /** Once every stream has ended nothing is left behind. */
  lemma NothingLeft(maxConnections: int, q: Quota)
    requires Inv(maxConnections, q) && q.ids == {}
    ensures q.tokenOf == map[] && q.countOf == map[]
  {
    assert q.tokenOf.Keys == {};
    forall key ensures key !in q.countOf {
      assert StreamsOf(q, key) == {};
      assert Agrees(q, key);
    }
  }

  // --- what the limits come to ---

  const NO_STREAMS := Quota({}, map[], map[])

  lemma Quarter(maxConnections: int, n: int)
    requires 0 <= maxConnections && 0 <= n
    ensures n <= PerBot(maxConnections) <==> n <= 1 || 4 * n <= maxConnections
    ensures n >= PerBot(maxConnections) <==> n >= 1 && 4 * (n + 1) > maxConnections
  {
  }

  /** In every run a bot with more than one stream has at most a quarter of all streams allowed. */
  lemma EveryBotWithinQuota(maxConnections: int, es: seq<Event>, key: string)
    requires 0 <= maxConnections && AllAllowed(maxConnections, NO_STREAMS, es)
    ensures var q := Run(maxConnections, NO_STREAMS, es); var n := |StreamsOf(q, key)|;
      |q.ids| <= maxConnections && (n <= 1 || 4 * n <= maxConnections)
  {
    NoStreamsOk(maxConnections);
    CountersAgree(maxConnections, NO_STREAMS, es);
    var q := Run(maxConnections, NO_STREAMS, es);
    assert Agrees(q, key);
    if key in q.countOf {
      Quarter(maxConnections, q.countOf[key]);
    }
  }

  lemma NoStreamsOk(maxConnections: int)
    requires 0 <= maxConnections
    ensures Inv(maxConnections, NO_STREAMS)
  {
    forall key ensures Agrees(NO_STREAMS, key) {
      assert StreamsOf(NO_STREAMS, key) == {};
    }
  }

  /** A request that nothing else stands against is answered 429 exactly when all streams are
      taken, or when the bot has a stream and one more would exceed a quarter of them. */
  lemma TooManyIff(maxConnections: int, q: Quota, token: string, isTest: bool, gate: Gate)
    requires Inv(maxConnections, q) && ValidToken(token) && gate == Gate(false, false, true, true, true, true)
    ensures var n := |StreamsOf(q, TokenKey(token, isTest))|;
      Refusal(maxConnections, q, token, isTest, gate) ==
        if |q.ids| == maxConnections || (n >= 1 && 4 * (n + 1) > maxConnections) then 429 else 0
  {
    var key := TokenKey(token, isTest);
    assert Agrees(q, key);
    Quarter(maxConnections, |StreamsOf(q, key)|);
  }

  /** For a request in general: what each answer means. */
  lemma AnswerMeans(maxConnections: int, q: Quota, token: string, isTest: bool, gate: Gate)
    requires Inv(maxConnections, q)
    ensures var n := |StreamsOf(q, TokenKey(token, isTest))|;
      var code := Refusal(maxConnections, q, token, isTest, gate);
      var open := !gate.emergency && !gate.closing && gate.enabled && |q.ids| < maxConnections;
      && (code == 507 <==> gate.emergency)
      && (code == 503 <==> !gate.emergency && gate.closing)
      && (code == 404 <==> !gate.emergency && !gate.closing && !gate.enabled)
      && (code == 401 <==> open && !ValidToken(token))
      && (code == 421 <==> open && ValidToken(token) && !gate.inRange)
      && (code == 400 <==> open && ValidToken(token) && gate.inRange && !gate.fileIdOk)
      && (code == 0 <==> open && ValidToken(token) && gate.inRange && gate.fileIdOk && gate.floodOk &&
                         (n == 0 || 4 * (n + 1) <= maxConnections))
      && code in {0, 400, 401, 404, 421, 429, 503, 507}
  {
    var key := TokenKey(token, isTest);
    assert Agrees(q, key);
    Quarter(maxConnections, |StreamsOf(q, key)|);
  }

  /** A valid token is the printed identifier of a user, a colon, and anything without a slash. */
  lemma ValidTokenIff(token: string)
    ensures ValidToken(token) <==>
      |token| <= 80 && '/' !in token && exists id, rest :: IsToken(token, id, rest)
  {
    if ValidToken(token) {
      var at := Find(token, ':');
      var id := ToIntegerSafe(token[..at]).value;
      IntegerIff(token[..at], id);
      assert token == token[..at] + ":" + token[at + 1..];
      assert IsToken(token, id, token[at + 1..]);
    } else if exists id, rest :: IsToken(token, id, rest) {
      var id, rest :| IsToken(token, id, rest);
      TokenParts(token, id, rest);
    }
  }

  predicate IsToken(token: string, id: int, rest: string) {
    0 < id < 18014398509481984 && token == Dec(id) + ":" + rest
  }

  lemma TokenParts(token: string, id: int, rest: string)
    requires IsToken(token, id, rest)
    ensures ':' in token && token[0] != '0' && ToIntegerSafe(token[..Find(token, ':')]) == Some(id)
  {
    var text := Dec(id);
    DecNatDigits(id);
    FirstDigit(id);
    assert token[|text|] == ':' && token[..|text|] == text;
    FirstColon(token, |text|);
    IntegerIff(text, id);
  }

  lemma {:induction false} FirstColon(token: string, n: nat)
    requires n < |token| && token[n] == ':' && forall i | 0 <= i < n :: token[i] != ':'
    ensures Find(token, ':') == n
  {
    if n > 0 {
      FirstColon(token[1..], n - 1);
    }
  }

  lemma {:induction false} FirstDigit(n: nat)
    requires n > 0
    ensures DecNat(n)[0] != '0'
  {
    if n >= 10 {
      FirstDigit(n / 10);
    }
  }

  // --- the manager ---

  class StreamManager {
    const maxConnections: int
    var activeStreamIds: set<int>
    var activeStreamToken: map<int, string>
    var activeStreamsByToken: map<string, int>

    ghost function Snapshot(): Quota
      reads this
    {
      Quota(activeStreamIds, activeStreamToken, activeStreamsByToken)
    }

    ghost predicate Valid()
      reads this
    {
      Inv(maxConnections, Snapshot())
    }

    constructor (max: int)
      requires 0 <= max
      ensures Valid() && maxConnections == max && Snapshot() == Quota({}, map[], map[])
    {
      maxConnections := max;
      activeStreamIds, activeStreamToken, activeStreamsByToken := {}, map[], map[];
      new;
      forall key ensures Agrees(Snapshot(), key) {
        assert StreamsOf(Snapshot(), key) == {};
      }
    }

    method SendFileStream(stream: int, token: string, isTest: bool, gate: Gate) returns (code: int)
      requires Valid() && stream !in activeStreamIds
      modifies this
      ensures Valid() && code == Refusal(maxConnections, old(Snapshot()), token, isTest, gate)
      ensures Snapshot() == Step(maxConnections, old(Snapshot()), Ask(stream, token, isTest, gate))
    {
      if gate.emergency {
        return 507;
      }
      if gate.closing {
        return 503;
      }
      if !gate.enabled {
        return 404;
      }
      if |activeStreamIds| >= maxConnections {
        return 429;
      }
      if !ValidToken(token) {
        return 401;
      }
      if !gate.inRange {
        return 421;
      }
      if !gate.fileIdOk {
        return 400;
      }
      var key := TokenKey(token, isTest);
      var count := if key in activeStreamsByToken then activeStreamsByToken[key] else 0;
      if count >= PerBot(maxConnections) {
        return 429;
      }
      if !gate.floodOk {
        return 429;
      }
      AdmitKeeps(maxConnections, Snapshot(), stream, token, isTest, gate);
      activeStreamIds := activeStreamIds + {stream};
      activeStreamToken := activeStreamToken[stream := key];
      activeStreamsByToken := activeStreamsByToken[key := count + 1];
      code := 0;
    }

    method ReleaseFileStream(stream: int)
      requires Valid()
      modifies this
      ensures Valid() && Snapshot() == Released(old(Snapshot()), stream)
    {
      ReleaseKeeps(maxConnections, Snapshot(), stream);
      activeStreamIds := activeStreamIds - {stream};
      if stream in activeStreamToken {
        LowerCount(activeStreamToken[stream]);
        activeStreamToken := activeStreamToken - {stream};
      }
    }

    /** The counter of a released stream; a counter of zero is not kept. */
    method LowerCount(key: string)
      modifies `activeStreamsByToken
      ensures activeStreamsByToken == Lowered(old(activeStreamsByToken), key)
    {
      if key in activeStreamsByToken {
        var count := activeStreamsByToken[key] - 1;
        if count <= 0 {
          activeStreamsByToken := activeStreamsByToken - {key};
        } else {
          activeStreamsByToken := activeStreamsByToken[key := count];
        }
      }
    }
  }
}
