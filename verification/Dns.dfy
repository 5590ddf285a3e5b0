/**
 DNS failover (internal/dnsfallback/resolver.go): the candidate loop with its time budgets,
 and the length-prefixed frames of section 4.2.2 of RFC 1035.
 */
module Dns {
  import opened Wrappers
  import opened Base64

  type Message = seq<Byte>
  type Server = nat

  /******* Replies *******/

  // Header bytes 2 and 3 hold QR, TC and RCODE (section 4.1.1 of RFC 1035).
  predicate IsReply(m: Message) {
    |m| >= 12 && m[2] >= 0x80
  }

  predicate Matching(query: Message, m: Message)
    requires |query| >= 12
  {
    IsReply(m) && m[0] == query[0] && m[1] == query[1]
  }

  // Success, NXDOMAIN, or truncated.
  predicate Decisive(m: Message)
    requires |m| >= 12
  {
    m[3] % 16 == 0 || m[3] % 16 == 3 || m[2] / 2 % 2 == 1
  }

  // What roundTrip makes of the messages a server sends in time: over UDP unrelated and
  // malformed ones are skipped, over TCP the first decides.
  function Heard(query: Message, tcp: bool, sent: seq<Message>): Option<Message> {
    if |query| < 12 || sent == [] then None
    else if Matching(query, sent[0]) then Some(sent[0])
    else if tcp then None
    else Heard(query, tcp, sent[1..])
  }

  lemma {:induction false} HeardMatches(query: Message, tcp: bool, sent: seq<Message>)
    ensures Heard(query, tcp, sent).Some? ==> |query| >= 12 && Matching(query, Heard(query, tcp, sent).value)
  {
    if |query| >= 12 && sent != [] {
      HeardMatches(query, tcp, sent[1..]);
    }
  }

  /** The end of roundTrip. */
  method RoundTrip(query: Message, tcp: bool, sent: seq<Message>) returns (reply: Option<Message>)
    ensures reply == Heard(query, tcp, sent)
  {
    if |query| < 12 {
      return None;
    }
    var i := 0;
    while i < |sent|
      invariant 0 <= i <= |sent|
      invariant Heard(query, tcp, sent) == Heard(query, tcp, sent[i..])
    {
      assert sent[i..][1..] == sent[i + 1..];
      if |sent[i]| >= 12 && sent[i][2] >= 0x80 && sent[i][0] == query[0] && sent[i][1] == query[1] {
        return Some(sent[i]);
      }
      if tcp {
        return None;
      }
      i := i + 1;
    }
    reply := None;
  }

  // The header's third and fourth bytes, as section 4.1.1 of RFC 1035 lays them out.
  datatype Header = Header(qr: nat, opcode: nat, aa: nat, tc: nat, rd: nat, ra: nat, z: nat, rcode: nat)

  predicate Carries(m: Message, h: Header) {
    && h.qr < 2 && h.opcode < 16 && h.aa < 2 && h.tc < 2 && h.rd < 2 && h.ra < 2 && h.z < 8 && h.rcode < 16
    && |m| >= 12 && m[2] == h.qr * 128 + h.opcode * 8 + h.aa * 4 + h.tc * 2 + h.rd && m[3] == h.ra * 128 + h.z * 16 + h.rcode
  }

  // Truncated, success or name error.
  predicate Settling(h: Header) {
    h.tc == 1 || h.rcode == 0 || h.rcode == 3
  }

  /** QR marks a reply, and a reply decides when it is truncated or its code is success or
      name error. */
  lemma HeaderMeans(m: Message, h: Header)
    requires Carries(m, h)
    ensures IsReply(m) <==> h.qr == 1
    ensures Decisive(m) <==> Settling(h)
  {
    assert m[2] / 2 == h.qr * 64 + h.opcode * 4 + h.aa * 2 + h.tc;
    assert m[3] % 16 == h.rcode;
  }

  // A reply to the query, with its whole header.
  predicate Answers(query: Message, m: Message) {
    |query| >= 12 && |m| >= 12 && m[2] >= 128 && m[..2] == query[..2]
  }

  /** What is heard is the first message that answers the query; over TCP only the very first
      message may be it. */
  lemma {:induction false} HeardIs(query: Message, tcp: bool, sent: seq<Message>, i: nat)
    requires i < |sent| && Answers(query, sent[i]) && forall j :: 0 <= j < i ==> !Answers(query, sent[j])
    ensures Heard(query, tcp, sent) == if tcp && i > 0 then None else Some(sent[i])
    decreases |sent|
  {
    MatchingIs(query, sent[0]);
    if i > 0 {
      HeardIs(query, tcp, sent[1..], i - 1);
    }
  }

  /** Where no message answers the query nothing is heard. */
  lemma {:induction false} NothingHeard(query: Message, tcp: bool, sent: seq<Message>)
    requires forall j :: 0 <= j < |sent| ==> !Answers(query, sent[j])
    ensures Heard(query, tcp, sent) == None
  {
    if sent != [] {
      MatchingIs(query, sent[0]);
      NothingHeard(query, tcp, sent[1..]);
    }
  }

  lemma MatchingIs(query: Message, m: Message)
    ensures Answers(query, m) <==> |query| >= 12 && Matching(query, m)
  {
    if |query| >= 12 && |m| >= 12 {
      assert m[..2] == [m[0], m[1]] && query[..2] == [query[0], query[1]];
    }
  }

  // What one candidate does: nothing usable, or a reply; and the time it takes.
  datatype Attempt = Attempt(reply: Option<Message>, used: nat)

  /******* Budgets *******/

  // Each candidate's share of the time left; the divisor counts those still to come.
  function Share(left: int, candidates: int): int
    requires candidates > 0
  {
    left / candidates
  }

  function Budget(timeout: int, deadline: Option<int>, now: int, candidates: int): int
    requires candidates > 0
  {
    if deadline.None? then timeout
    else if Share(deadline.value - now, candidates) < timeout then Share(deadline.value - now, candidates) else timeout
  }

  /** A budget is the most an attempt may take without passing the timeout, nor, were every
      candidate left to take as much, the deadline. */
  lemma BudgetIs(timeout: int, deadline: int, now: int, candidates: int, other: int)
    requires candidates > 0
    ensures Budget(timeout, None, now, candidates) == timeout
    ensures var b := Budget(timeout, Some(deadline), now, candidates);
      && b <= timeout && b * candidates <= deadline - now
      && (other <= timeout && other * candidates <= deadline - now ==> other <= b)
  {
    var left := deadline - now;
    var q := Share(left, candidates);
    assert left == q * candidates + left % candidates;
    var b := Budget(timeout, Some(deadline), now, candidates);
    MultiplyBoth(b, q, candidates);
    if other * candidates <= left {
      DivideBack(left, candidates, other);
    }
  }

  function Now(start: int, attempts: seq<Attempt>, i: nat): int
    requires i <= |attempts|
  {
    if i == 0 then start else Now(start, attempts, i - 1) + attempts[i - 1].used
  }

  // Every attempt stays within the budget it is given.
  ghost predicate Obedient(attempts: seq<Attempt>, start: int, timeout: int, deadline: Option<int>) {
    forall i :: 0 <= i < |attempts| ==> attempts[i].used <= Budget(timeout, deadline, Now(start, attempts, i), |attempts| - i)
  }

  lemma MultiplyBoth(x: int, y: int, m: int)
    requires x <= y && 0 <= m
    ensures x * m <= y * m
  {
  }

  lemma DivideBack(a: int, m: int, q: int)
    requires m > 0 && a >= q * m
    ensures a / m >= q
  {
    var d := a / m;
    assert a == d * m + a % m;
    assert (d + 1) * m == d * m + m;
    if d + 1 <= q {
      MultiplyBoth(d + 1, q, m);
    }
  }

  // One candidate spends at most its share.
  lemma ShareStep(left: int, n: int, used: nat)
    requires left > 0 && n >= 1 && used <= Share(left, n)
    ensures used <= left
    ensures n >= 2 ==> left - used > 0 && Share(left - used, n - 1) >= Share(left, n)
  {
    var q := left / n;
    assert left == q * n + left % n;
    MultiplyBoth(1, n, q);
    if n >= 2 {
      MultiplyBoth(2, n, q);
      assert q * n == q * (n - 1) + q;
      DivideBack(left - used, n - 1, q);
    }
  }

  lemma ObedientAt(attempts: seq<Attempt>, start: int, timeout: int, deadline: int, i: nat)
    requires Obedient(attempts, start, timeout, Some(deadline)) && i < |attempts|
    ensures attempts[i].used <= Share(deadline - Now(start, attempts, i), |attempts| - i)
  {
    hide Share;
    hide Now;
  }

  /** When attempts keep to their budgets, nobody's share of the remaining time shrinks,
      every candidate is reached before the deadline, and the last ends by it. */
  lemma {:induction false} SharesNeverShrink(attempts: seq<Attempt>, start: int, timeout: int, deadline: int, i: nat)
    requires Obedient(attempts, start, timeout, Some(deadline)) && start < deadline && i < |attempts|
    ensures var now := Now(start, attempts, i); var n := |attempts|;
      && now < deadline
      && Share(deadline - start, n) <= Share(deadline - now, n - i)
      && now + attempts[i].used <= deadline
      && (i + 1 < n ==> Share(deadline - now, n - i) <= Share(deadline - now - attempts[i].used, n - i - 1))
  {
    hide Share;
    hide Obedient;
    var n := |attempts|;
    if i > 0 {
      SharesNeverShrink(attempts, start, timeout, deadline, i - 1);
      var before := Now(start, attempts, i - 1);
      ObedientAt(attempts, start, timeout, deadline, i - 1);
      ShareStep(deadline - before, n - i + 1, attempts[i - 1].used);
      assert deadline - Now(start, attempts, i) == deadline - before - attempts[i - 1].used;
    }
    ObedientAt(attempts, start, timeout, deadline, i);
    ShareStep(deadline - Now(start, attempts, i), n - i, attempts[i].used);
  }

  /******* The answer *******/

  datatype Answer = Reply(message: Message) | Failed | Expired

  predicate DecisiveAt(attempts: seq<Attempt>, i: nat)
    requires i < |attempts|
  {
    attempts[i].reply.Some? && |attempts[i].reply.value| >= 12 && Decisive(attempts[i].reply.value)
  }

  // The first decisive reply in order, else the last other reply, else a failure.
  function Chosen(attempts: seq<Attempt>, last: Option<Message>): Answer {
    if attempts == [] then (if last.Some? then Reply(last.value) else Failed)
    else if DecisiveAt(attempts, 0) then Reply(attempts[0].reply.value)
    else Chosen(attempts[1..], if attempts[0].reply.Some? then attempts[0].reply else last)
  }

  // The reply has a header that settles the query.
  ghost predicate Settles(a: Attempt) {
    a.reply.Some? && exists h :: Carries(a.reply.value, h) && Settling(h)
  }

  function HeaderOf(m: Message): (h: Header)
    requires |m| >= 12
    ensures Carries(m, h)
  {
    var x: int, y: int := m[2], m[3];
    var a := x / 2;
    var b := a / 2;
    var c := b / 2;
    var d := y / 16;
    Header(c / 16, c % 16, b % 2, a % 2, x % 2, d / 8, d % 8, y % 16)
  }

  lemma DecisiveSettles(attempts: seq<Attempt>, i: nat)
    requires i < |attempts|
    ensures DecisiveAt(attempts, i) <==> Settles(attempts[i])
  {
    hide Carries;
    hide Settling;
    hide Decisive;
    if DecisiveAt(attempts, i) {
      HeaderMeans(attempts[i].reply.value, HeaderOf(attempts[i].reply.value));
    }
    if Settles(attempts[i]) {
      var h :| Carries(attempts[i].reply.value, h) && Settling(h);
      HasHeader(attempts[i].reply.value, h);
      HeaderMeans(attempts[i].reply.value, h);
    }
  }

  lemma HasHeader(m: Message, h: Header)
    requires Carries(m, h)
    ensures |m| >= 12
  {
  }

  ghost predicate FirstDecisive(attempts: seq<Attempt>, i: nat)
    requires i < |attempts|
  {
    Settles(attempts[i]) && forall j :: 0 <= j < i ==> !Settles(attempts[j])
  }

  ghost predicate LastReply(attempts: seq<Attempt>, i: nat)
    requires i < |attempts|
  {
    attempts[i].reply.Some? && forall j :: i < j < |attempts| ==> attempts[j].reply.None?
  }

  ghost predicate Undecided(attempts: seq<Attempt>) {
    forall i :: 0 <= i < |attempts| ==> !Settles(attempts[i])
  }

  lemma {:induction false} ChosenIs(attempts: seq<Attempt>, last: Option<Message>, i: nat)
    requires i < |attempts|
    ensures FirstDecisive(attempts, i) ==> Chosen(attempts, last) == Reply(attempts[i].reply.value)
    ensures Undecided(attempts) && LastReply(attempts, i) ==> Chosen(attempts, last) == Reply(attempts[i].reply.value)
    decreases |attempts|
  {
    hide Settles;
    var rest := attempts[1..];
    assert forall j :: 0 <= j < |rest| ==> rest[j] == attempts[j + 1];
    DecisiveSettles(attempts, 0);
    var next := if attempts[0].reply.Some? then attempts[0].reply else last;
    if i > 0 {
      assert FirstDecisive(attempts, i) ==> FirstDecisive(rest, i - 1);
      assert LastReply(attempts, i) ==> LastReply(rest, i - 1);
      ChosenIs(rest, next, i - 1);
    } else if Undecided(attempts) && LastReply(attempts, 0) {
      NoneLeft(rest, next);
    }
  }

  lemma {:induction false} NoneLeft(attempts: seq<Attempt>, last: Option<Message>)
    requires forall i :: 0 <= i < |attempts| ==> attempts[i].reply.None?
    ensures Chosen(attempts, last) == if last.Some? then Reply(last.value) else Failed
    decreases |attempts|
  {
    if attempts != [] {
      NoneLeft(attempts[1..], last);
    }
  }

  /** The answer over any list of candidates: the first authoritative or truncated reply in
      order; without one, the last other reply; without any reply, a failure. */
  lemma AnswerMeans(attempts: seq<Attempt>)
    ensures var answer := Chosen(attempts, None);
      && (forall i :: 0 <= i < |attempts| && FirstDecisive(attempts, i) ==> answer == Reply(attempts[i].reply.value))
      && (forall i :: 0 <= i < |attempts| && Undecided(attempts) && LastReply(attempts, i) ==> answer == Reply(attempts[i].reply.value))
      && ((forall i :: 0 <= i < |attempts| ==> attempts[i].reply.None?) ==> answer == Failed)
  {
    forall i | 0 <= i < |attempts|
      ensures FirstDecisive(attempts, i) ==> Chosen(attempts, None) == Reply(attempts[i].reply.value)
      ensures Undecided(attempts) && LastReply(attempts, i) ==> Chosen(attempts, None) == Reply(attempts[i].reply.value)
    {
      ChosenIs(attempts, None, i);
    }
    if forall i :: 0 <= i < |attempts| ==> attempts[i].reply.None? {
      NoneLeft(attempts, None);
    }
  }

  lemma {:induction false} ChosenIsHeard(attempts: seq<Attempt>, last: Option<Message>, m: Message)
    requires Chosen(attempts, last) == Reply(m)
    ensures last == Some(m) || exists i :: 0 <= i < |attempts| && attempts[i].reply == Some(m)
    decreases |attempts|
  {
    if attempts != [] && !DecisiveAt(attempts, 0) {
      var next := if attempts[0].reply.Some? then attempts[0].reply else last;
      ChosenIsHeard(attempts[1..], next, m);
      if next != Some(m) {
        var i :| 0 <= i < |attempts[1..]| && attempts[1..][i].reply == Some(m);
        assert attempts[i + 1].reply == Some(m);
      }
    }
  }

  /** Whatever the candidates send, the answer is a reply to the query, with its whole
      header; a query without one gets none. */
  lemma AnswerIsToTheQuery(query: Message, tcp: bool, sent: seq<seq<Message>>, attempts: seq<Attempt>)
    requires |sent| == |attempts| && forall i :: 0 <= i < |sent| ==> attempts[i].reply == Heard(query, tcp, sent[i])
    ensures var answer := Chosen(attempts, None);
      answer.Reply? ==> |query| >= 12 && |answer.message| >= 12 && Matching(query, answer.message)
  {
    var answer := Chosen(attempts, None);
    if answer.Reply? {
      ChosenIsHeard(attempts, None, answer.message);
      var i :| 0 <= i < |attempts| && attempts[i].reply == Some(answer.message);
      HeardMatches(query, tcp, sent[i]);
    }
  }

  /** exchange. The context ends at stop, if it ever does; a loop that is not cut short by
      it answers as Chosen says. */
  method Exchange(attempts: seq<Attempt>, start: int, stop: Option<int>) returns (answer: Answer, tried: nat)
    ensures tried <= |attempts|
    ensures answer != Expired ==> answer == Chosen(attempts, None)
    ensures answer == Expired ==> stop.Some? && stop.value <= Now(start, attempts, tried)
    ensures answer == Expired ==> forall i :: 0 <= i < tried ==> !Settles(attempts[i])
    ensures (stop.Some? ==> forall i :: 0 <= i <= |attempts| ==> Now(start, attempts, i) < stop.value) ==> answer != Expired
  {
    var lastResponse: Option<Message> := None;
    var now := start;
    tried := 0;
    while tried < |attempts|
      invariant tried <= |attempts| && now == Now(start, attempts, tried)
      invariant Chosen(attempts, None) == Chosen(attempts[tried..], lastResponse)
      invariant forall i :: 0 <= i < tried ==> !Settles(attempts[i])
    {
      if stop.Some? && stop.value <= now {
        return Expired, tried;
      }
      var attempt := attempts[tried];
      assert attempts[tried..][0] == attempt && attempts[tried..][1..] == attempts[tried + 1..];
      assert DecisiveAt(attempts[tried..], 0) == DecisiveAt(attempts, tried);
      DecisiveSettles(attempts, tried);
      if attempt.reply.Some? {
        var response := attempt.reply.value;
        if |response| >= 12 && (response[3] % 16 == 0 || response[3] % 16 == 3 || response[2] / 2 % 2 == 1) {
          return Reply(response), tried;
        }
        lastResponse := Some(response);
      }
      now := now + attempt.used;
      tried := tried + 1;
    }
    if stop.Some? && stop.value <= now {
      return Expired, tried;
    }
    answer := if lastResponse.Some? then Reply(lastResponse.value) else Failed;
  }

  /** Under a deadline alone and obedient attempts, only the very last moment can expire:
      every candidate has had its turn by then. */
  lemma EveryCandidateIsTried(attempts: seq<Attempt>, start: int, timeout: int, deadline: int, i: nat)
    requires Obedient(attempts, start, timeout, Some(deadline)) && start < deadline && i < |attempts|
    ensures Now(start, attempts, i) < deadline
  {
    SharesNeverShrink(attempts, start, timeout, deadline, i);
  }

  /******* Server lists *******/

  function AppendUnique(servers: seq<Server>, server: Server): seq<Server> {
    if server in servers then servers else servers + [server]
  }

  // systemServers and newResolver: the supplied servers, then the fallbacks.
  function AppendAll(servers: seq<Server>, more: seq<Server>): seq<Server>
    decreases |more|
  {
    if more == [] then servers else AppendAll(AppendUnique(servers, more[0]), more[1..])
  }

  ghost predicate Distinct(servers: seq<Server>) {
    forall i, j :: 0 <= i < j < |servers| ==> servers[i] != servers[j]
  }

  /** Fallbacks are tried after every supplied server, each address once. */
  lemma {:induction false} CandidatesInOrder(servers: seq<Server>, more: seq<Server>)
    requires Distinct(servers)
    ensures var all := AppendAll(servers, more);
      servers <= all && Distinct(all) && forall s :: s in all <==> s in servers || s in more
    decreases |more|
  {
    if more != [] {
      CandidatesInOrder(AppendUnique(servers, more[0]), more[1..]);
      assert forall s :: s in more <==> s == more[0] || s in more[1..];
    }
  }

  /** A fallback goes behind all before it, unless its address is there already. */
  lemma {:induction false} FallbacksInOrder(servers: seq<Server>, more: seq<Server>, last: Server)
    ensures AppendAll(servers, []) == servers
    ensures var all := AppendAll(servers, more); AppendAll(servers, more + [last]) == if last in all then all else all + [last]
    decreases |more|
  {
    if more == [] {
      assert more + [last] == [last] && [last][1..] == [];
    } else {
      assert (more + [last])[1..] == more[1..] + [last];
      FallbacksInOrder(AppendUnique(servers, more[0]), more[1..], last);
    }
  }

  method AppendIfNew(servers: seq<Server>, server: Server) returns (r: seq<Server>)
    ensures r == AppendUnique(servers, server)
  {
    for i := 0 to |servers|
      invariant server !in servers[..i]
    {
      if servers[i] == server {
        return servers;
      }
      assert servers[..i + 1] == servers[..i] + [servers[i]];
    }
    assert servers[..|servers|] == servers;
    r := servers + [server];
  }

  /******* Frames *******/

  const MAX_FRAME := 65535

  // binary.BigEndian.PutUint16 of uint16(len)
  function Frame(message: Message): Message {
    [|message| / 256 % 256, |message| % 256] + message
  }

  // A frame off the front of a stream, and what is left; None when the stream ends early.
  function ReadFrame(stream: Message): Option<(Message, Message)> {
    if |stream| < 2 then None
    else
      var high: int, low: int := stream[0], stream[1];
      var n := high * 256 + low;
      if |stream| < 2 + n then None else Some((stream[2..2 + n], stream[2 + n..]))
  }

  // A length in two bytes, the higher first.
  predicate LengthIs(stream: Message, n: nat) {
    |stream| >= 2 && var high: int, low: int := stream[0], stream[1]; n == high * 256 + low
  }

  /** A stream is read as a message exactly when its first two bytes, the higher first, are
      the message's length and the message follows them. */
  lemma ReadsIff(stream: Message, message: Message, rest: Message)
    ensures ReadFrame(stream) == Some((message, rest)) <==> LengthIs(stream, |message|) && stream[2..] == message + rest
  {
    if LengthIs(stream, |message|) && stream[2..] == message + rest {
      var n := |message|;
      assert stream[2..2 + n] == stream[2..][..n] == message;
      assert stream[2 + n..] == stream[2..][n..] == rest;
    } else if ReadFrame(stream).Some? {
      var (m, r) := ReadFrame(stream).value;
      assert stream[2..] == m + r;
    }
  }

  lemma BigEndian(n: nat)
    ensures n / 256 % 256 * 256 + n % 256 == n % 65536
  {
  }

  /** A frame reads back as the message it was written from, whatever follows, exactly when
      its length fits the two-byte prefix. */
  lemma FrameRoundTripsIff(message: Message, rest: Message)
    ensures ReadFrame(Frame(message) + rest) == Some((message, rest)) <==> |message| <= MAX_FRAME
  {
    var stream := Frame(message) + rest;
    var high: int, low: int := stream[0], stream[1];
    var n := high * 256 + low;
    BigEndian(|message|);
    if |message| <= MAX_FRAME {
      assert stream[2..2 + n] == message && stream[2 + n..] == rest;
    } else {
      assert n < |message|;
    }
  }

  method WriteFrame(message: Message) returns (frame: array<Byte>)
    ensures frame[..] == Frame(message)
  {
    frame := new Byte[2 + |message|](_ => 0);
    frame[0], frame[1] := |message| / 256 % 256, |message| % 256;
    for i := 0 to |message|
      invariant frame[0] == |message| / 256 % 256 && frame[1] == |message| % 256
      invariant forall k :: 0 <= k < i ==> frame[2 + k] == message[k]
    {
      frame[2 + i] := message[i];
    }
    assert frame[..] == Frame(message);
  }
}
