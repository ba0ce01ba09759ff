/**
 The signed-command pipeline of the vehicle controller: parse, judge the signature, act, acknowledge.

 JSON and HMAC-SHA256 enter as two functions of which nothing is assumed: `canon` serializes the
 fields that are signed and `mac` authenticates bytes under a key.
 */
module CommandGate {
  import Lines
  import opened Numbers
  import opened Wrappers

  datatype Envelope = Envelope(seqNo: nat, cmd: string, payload: string, sig: Option<seq<Byte>>)

  datatype Crypto = Crypto(
    canon: (nat, string, string) -> seq<Byte>,
    mac: (string, seq<Byte>) -> seq<Byte>)

  datatype Policy = Policy(hmacKey: Option<string>, allowUnsignedEstop: bool)

  predicate IsEstop(cmd: string) {
    cmd == "estop" || "estop_" <= cmd || "estop-" <= cmd
  }

  // ---- Hex ----

  function HexDigit(n: nat): Byte
    requires n < 16
  {
    if n < 10 then 48 + n else 87 + n
  }

  function Hex(bytes: seq<Byte>): (h: seq<Byte>)
    ensures |h| == 2 * |bytes|
  {
    if bytes == [] then [] else [HexDigit(bytes[0] / 16), HexDigit(bytes[0] % 16)] + Hex(bytes[1..])
  }

  function DigitValue(c: Byte): (v: Option<nat>)
    ensures v.Some? ==> v.value < 16
  {
    if 48 <= c <= 57 then Some(c - 48)
    else if 97 <= c <= 102 then Some(c - 87)
    else if 65 <= c <= 70 then Some(c - 55)
    else None
  }

  /** Radix-16 parse of two characters; a leading plus sign is accepted, as the library parser does. */
  function PairValue(a: Byte, b: Byte): Option<Byte> {
    var hi, lo := DigitValue(a), DigitValue(b);
    if lo.None? then None
    else if a == 43 then Some(lo.value)
    else if hi.None? then None
    else Some(16 * hi.value + lo.value)
  }

  function FromHex(h: seq<Byte>): Option<seq<Byte>> {
    if h == [] then Some([])
    else if |h| == 1 then None
    else
      var head, tail := PairValue(h[0], h[1]), FromHex(h[2..]);
      if head.None? || tail.None? then None else Some([head.value] + tail.value)
  }

  /** The decoder inverts the printer. */
  lemma {:induction false} FromHexOfHex(bytes: seq<Byte>)
    ensures FromHex(Hex(bytes)) == Some(bytes)
  {
    if bytes != [] {
      FromHexOfHex(bytes[1..]);
      assert Hex(bytes)[2..] == Hex(bytes[1..]);
      assert bytes == [bytes[0]] + bytes[1..];
    }
  }

  /** The texts that decode to `bytes` are exactly those that spell each byte in two characters. */
  lemma {:induction false} FromHexSpells(h: seq<Byte>, bytes: seq<Byte>)
    ensures FromHex(h) == Some(bytes) <==>
            |h| == 2 * |bytes| && forall i :: 0 <= i < |bytes| ==> PairValue(h[2 * i], h[2 * i + 1]) == Some(bytes[i])
  {
    if |h| >= 2 && bytes != [] {
      FromHexSpells(h[2..], bytes[1..]);
      assert bytes == [bytes[0]] + bytes[1..];
      if |h| == 2 * |bytes| {
        if forall i :: 0 <= i < |bytes| ==> PairValue(h[2 * i], h[2 * i + 1]) == Some(bytes[i]) {
          forall i | 0 <= i < |bytes| - 1
            ensures PairValue(h[2..][2 * i], h[2..][2 * i + 1]) == Some(bytes[1..][i])
          {
            assert PairValue(h[2 * (i + 1)], h[2 * (i + 1) + 1]) == Some(bytes[i + 1]);
          }
        }
        if FromHex(h) == Some(bytes) {
          forall i | 0 <= i < |bytes| ensures PairValue(h[2 * i], h[2 * i + 1]) == Some(bytes[i]) {
            if i > 0 {
              assert PairValue(h[2..][2 * (i - 1)], h[2..][2 * (i - 1) + 1]) == Some(bytes[1..][i - 1]);
            }
          }
        }
      }
    }
  }

  // ---- Signatures ----

  /** What is signed: the envelope without its signature. */
  function Canonical(c: Crypto, env: Envelope): seq<Byte> {
    c.canon(env.seqNo, env.cmd, env.payload)
  }

  function Sign(c: Crypto, key: string, env: Envelope): seq<Byte> {
    Hex(c.mac(key, Canonical(c, env)))
  }

  predicate Verify(c: Crypto, key: string, env: Envelope, sig: seq<Byte>) {
    var given := FromHex(sig);
    given.Some? && given.value == c.mac(key, Canonical(c, env))
  }

  function EstopVerdict(c: Crypto, p: Policy, env: Envelope): (string, bool) {
    if !IsEstop(env.cmd) then ("n/a", true)
    else match (p.hmacKey, env.sig)
      case (None, Some(_)) => ("signed-unconfigured", true)
      case (None, None) => ("unsigned-unconfigured", true)
      case (Some(key), Some(sig)) => if Verify(c, key, env, sig) then ("ok", true) else ("invalid", false)
      case (Some(_), None) => if p.allowUnsignedEstop then ("absent-allowed", true) else ("absent", false)
  }

  predicate Allowed(c: Crypto, p: Policy, env: Envelope) {
    EstopVerdict(c, p, env).1
  }

  /** Attaching the signature of an envelope, under the configured key, always gets it through. */
  lemma SignedIsAllowed(c: Crypto, p: Policy, env: Envelope, key: string)
    requires p.hmacKey == Some(key)
    ensures Allowed(c, p, env.(sig := Some(Sign(c, key, env))))
  {
    FromHexOfHex(c.mac(key, Canonical(c, env)));
  }

  /**
   With a key configured, an emergency stop that carries a signature is acted on exactly when the
   signature spells, byte by byte, the authenticator of this very sequence number, command and payload.
   */
  lemma SignedEstopNeedsTheMac(c: Crypto, p: Policy, env: Envelope, key: string, sig: seq<Byte>)
    requires IsEstop(env.cmd) && p.hmacKey == Some(key) && env.sig == Some(sig)
    ensures var mac := c.mac(key, c.canon(env.seqNo, env.cmd, env.payload));
            Allowed(c, p, env) <==>
            |sig| == 2 * |mac| && forall i :: 0 <= i < |mac| ==> PairValue(sig[2 * i], sig[2 * i + 1]) == Some(mac[i])
  {
    FromHexSpells(sig, c.mac(key, Canonical(c, env)));
  }

  /** A refusal means an emergency stop, a configured key, and a missing or wrong signature. */
  lemma RefusalMatrix(c: Crypto, p: Policy, env: Envelope)
    ensures !Allowed(c, p, env) <==>
            IsEstop(env.cmd) && p.hmacKey.Some?
            && (env.sig.None? ==> !p.allowUnsignedEstop)
            && (env.sig.Some? ==> FromHex(env.sig.value) != Some(c.mac(p.hmacKey.value, Canonical(c, env))))
  {
  }

  /** The emergency stops are the bare word and whatever continues it after an underscore or a hyphen. */
  lemma EstopFamily(cmd: string)
    ensures IsEstop(cmd) <==>
            cmd == "estop" || (exists x :: cmd == "estop_" + x) || (exists x :: cmd == "estop-" + x)
  {
    Lines.PrefixIs("estop_", cmd);
    Lines.PrefixIs("estop-", cmd);
  }

  /** With a key and no leave to go unsigned, no unsigned stop of the family passes; any other command does. */
  lemma UnsignedStopsAreRefused(c: Crypto, key: string, n: nat, cmd: string, payload: string)
    ensures Allowed(c, Policy(Some(key), false), Envelope(n, cmd, payload, None)) <==>
            cmd != "estop" && (forall x :: cmd != "estop_" + x) && (forall x :: cmd != "estop-" + x)
  {
    EstopFamily(cmd);
  }

  /** The audit word says why a command was let through or refused. */
  lemma AuditWords(c: Crypto, p: Policy, env: Envelope)
    ensures var (word, allow) := EstopVerdict(c, p, env);
            var genuine := p.hmacKey.Some? && env.sig.Some?
                           && FromHex(env.sig.value) == Some(c.mac(p.hmacKey.value, Canonical(c, env)));
            && (allow <==> word != "invalid" && word != "absent")
            && (word == "n/a" <==> !IsEstop(env.cmd))
            && (word == "ok" <==> IsEstop(env.cmd) && genuine)
            && (word == "invalid" <==> IsEstop(env.cmd) && p.hmacKey.Some? && env.sig.Some? && !genuine)
            && (word == "absent" <==> IsEstop(env.cmd) && p.hmacKey.Some? && env.sig.None? && !p.allowUnsignedEstop)
            && (word == "absent-allowed" <==>
                IsEstop(env.cmd) && p.hmacKey.Some? && env.sig.None? && p.allowUnsignedEstop)
            && (word == "signed-unconfigured" <==> IsEstop(env.cmd) && p.hmacKey.None? && env.sig.Some?)
            && (word == "unsigned-unconfigured" <==> IsEstop(env.cmd) && p.hmacKey.None? && env.sig.None?)
  {
  }

  /** The characters of a digit: 0 to 9, and a to f in either case. */
  lemma HexDigits(c: Byte)
    ensures var ch := c as char;
            && (DigitValue(c).Some? <==> '0' <= ch <= '9' || 'a' <= ch <= 'f' || 'A' <= ch <= 'F')
            && ('0' <= ch <= '9' ==> DigitValue(c) == Some((ch - '0') as nat))
            && ('a' <= ch <= 'f' ==> DigitValue(c) == Some(10 + (ch - 'a') as nat))
            && ('A' <= ch <= 'F' ==> DigitValue(c) == Some(10 + (ch - 'A') as nat))
  {
  }

  /** Two characters spell their two digits, or a plus sign and one digit. */
  lemma PairsSpell(a: Byte, b: Byte)
    ensures PairValue(a, b).Some? <==> DigitValue(b).Some? && (DigitValue(a).Some? || a as char == '+')
    ensures PairValue(a, b).Some? && a as char != '+' ==>
              PairValue(a, b).value / 16 == DigitValue(a).value && PairValue(a, b).value % 16 == DigitValue(b).value
    ensures PairValue(a, b).Some? && a as char == '+' ==> PairValue(a, b).value == DigitValue(b).value
  {
  }

  // ---- The channel ----

  datatype Outcome = Ok(result: string) | Err(error: string)

  datatype Ack = Ack(ack: nat, outcome: Outcome)

  /** One line of the actuation audit. */
  datatype Audit = Audit(seqNo: nat, sigState: string, exec: string)

  const REJECTED := Err("estop_signature_rejected")

  /** The parseable envelopes among the messages, in order, each with what the actuator would answer. */
  function Parsed(parse: seq<Byte> -> Option<Envelope>, msgs: seq<(seq<Byte>, Outcome)>): seq<(Envelope, Outcome)> {
    if msgs == [] then []
    else
      var last := msgs[|msgs| - 1];
      Parsed(parse, msgs[..|msgs| - 1])
      + (if parse(last.0).Some? then [(parse(last.0).value, last.1)] else [])
  }

  function Permitted(c: Crypto, p: Policy, envs: seq<(Envelope, Outcome)>): seq<Envelope> {
    if envs == [] then []
    else
      var last := envs[|envs| - 1].0;
      Permitted(c, p, envs[..|envs| - 1]) + (if Allowed(c, p, last) then [last] else [])
  }

  /** The acknowledgement of one envelope, and the audit word for it. */
  predicate Answers(c: Crypto, p: Policy, x: (Envelope, Outcome), ack: Ack, line: Audit) {
    && ack.ack == x.0.seqNo == line.seqNo
    && ack.outcome == (if Allowed(c, p, x.0) then x.1 else Err("estop_signature_rejected"))
    && line.sigState == EstopVerdict(c, p, x.0).0
    && line.exec == if !Allowed(c, p, x.0) then "rejected" else if x.1.Ok? then "ok" else "error"
  }

  ghost predicate AllAnswered(c: Crypto, p: Policy, envs: seq<(Envelope, Outcome)>, acks: seq<Ack>, audit: seq<Audit>) {
    && |acks| == |audit| == |envs|
    && forall k :: 0 <= k < |acks| ==> Answers(c, p, envs[k], acks[k], audit[k])
  }

  /** One message: at most one acknowledgement and audit line; `ran` says whether the actuator was run. */
  method HandleCommand(c: Crypto, p: Policy, parse: seq<Byte> -> Option<Envelope>, data: seq<Byte>, outcome: Outcome)
    returns (ack: Option<Ack>, line: Option<Audit>, ran: bool)
    ensures ack.Some? <==> parse(data).Some?
    ensures line.Some? <==> ack.Some?
    ensures ack.Some? ==> Answers(c, p, (parse(data).value, outcome), ack.value, line.value)
    ensures ran <==> parse(data).Some? && Allowed(c, p, parse(data).value)
  {
    var parsed := parse(data);
    if parsed.None? {
      return None, None, false;
    }
    var env := parsed.value;
    var (sigState, allow) := EstopVerdict(c, p, env);
    if !allow {
      return Some(Ack(env.seqNo, REJECTED)), Some(Audit(env.seqNo, sigState, "rejected")), false;
    }
    var exec := "ok";
    if outcome.Err? {
      exec := "error";
    }
    return Some(Ack(env.seqNo, outcome)), Some(Audit(env.seqNo, sigState, exec)), true;
  }

  lemma NextMessage(parse: seq<Byte> -> Option<Envelope>, msgs: seq<(seq<Byte>, Outcome)>, i: nat)
    requires i < |msgs|
    ensures Parsed(parse, msgs[..i + 1])
            == Parsed(parse, msgs[..i]) + (if parse(msgs[i].0).Some? then [(parse(msgs[i].0).value, msgs[i].1)] else [])
  {
    assert msgs[..i + 1][..i] == msgs[..i];
  }

  lemma NextPermitted(c: Crypto, p: Policy, envs: seq<(Envelope, Outcome)>, x: (Envelope, Outcome))
    ensures Permitted(c, p, envs + [x]) == Permitted(c, p, envs) + (if Allowed(c, p, x.0) then [x.0] else [])
  {
    assert (envs + [x])[..|envs|] == envs;
  }

  /**
   A whole channel: the acknowledgements and audit lines match the parseable envelopes one to one and in
   order, each echoing its sequence number, and the actuator is run on exactly the permitted ones.
   */
  method RouteChannel(c: Crypto, p: Policy, parse: seq<Byte> -> Option<Envelope>, msgs: seq<(seq<Byte>, Outcome)>)
    returns (acks: seq<Ack>, audit: seq<Audit>, ran: seq<Envelope>)
    ensures AllAnswered(c, p, Parsed(parse, msgs), acks, audit)
    ensures ran == Permitted(c, p, Parsed(parse, msgs))
  {
    acks, audit, ran := [], [], [];
    ghost var envs := [];
    for i := 0 to |msgs|
      invariant envs == Parsed(parse, msgs[..i])
      invariant AllAnswered(c, p, envs, acks, audit)
      invariant ran == Permitted(c, p, envs)
    {
      var (data, outcome) := msgs[i];
      NextMessage(parse, msgs, i);
      var ack, line, acted := HandleCommand(c, p, parse, data, outcome);
      if ack.Some? {
        ghost var x := (parse(data).value, outcome);
        NextPermitted(c, p, envs, x);
        envs := envs + [x];
        acks, audit := acks + [ack.value], audit + [line.value];
      }
      if acted {
        ran := ran + [parse(data).value];
      }
    }
    assert msgs[..|msgs|] == msgs;
  }
}
