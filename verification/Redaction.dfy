/** Redaction of JSON values. Which keys look secret, and how a text is scrubbed, is left to the
    two pattern functions of a `Patterns` value. */
module Redaction {
  datatype Json =
    | Null | Bool(b: bool) | Num(n: real) | Str(s: string)
    | Arr(items: seq<Json>) | Obj(fields: map<string, Json>)

  type Row = map<string, Json>

  datatype Patterns = Patterns(secretKey: string -> bool, scrub: string -> string)

  const MAX_DEPTH := 8
  const MASK := "***"
  const TOO_DEEP := "<max-depth>"

  /** A text that was scrubbed has nothing left to scrub. */
  ghost predicate Settles(p: Patterns) {
    forall s :: p.scrub(p.scrub(s)) == p.scrub(s)
  }

  function Redact(p: Patterns, v: Json, depth: nat): Json
    decreases v
  {
    if depth > MAX_DEPTH then Str(TOO_DEEP)
    else
      match v
      case Obj(fields) =>
        Obj(map k | k in fields :: if p.secretKey(k) then Str(MASK) else Redact(p, fields[k], depth + 1))
      case Arr(items) => Arr(seq(|items|, i requires 0 <= i < |items| => Redact(p, items[i], depth + 1)))
      case Str(s) => Str(p.scrub(s))
      case _ => v
  }

  /** Redaction of an object whose fields are all texts. */
  function RedactTexts(p: Patterns, texts: map<string, string>): map<string, string> {
    map k | k in texts :: if p.secretKey(k) then MASK else p.scrub(texts[k])
  }

  function ObjectOf(texts: map<string, string>): Json {
    Obj(map k | k in texts :: Str(texts[k]))
  }

  lemma TextsAreRedacted(p: Patterns, texts: map<string, string>)
    ensures Redact(p, ObjectOf(texts), 0) == ObjectOf(RedactTexts(p, texts))
  {
  }

  /** Redacting what was redacted changes nothing, at any depth. */
  lemma {:induction false} RedactTwice(p: Patterns, v: Json, depth: nat)
    requires Settles(p)
    ensures Redact(p, Redact(p, v, depth), depth) == Redact(p, v, depth)
    decreases v
  {
    if depth <= MAX_DEPTH {
      match v {
        case Obj(fields) =>
          forall k | k in fields
            ensures Redact(p, Redact(p, fields[k], depth + 1), depth + 1) == Redact(p, fields[k], depth + 1)
          {
            RedactTwice(p, fields[k], depth + 1);
          }
          assert Redact(p, Redact(p, v, depth), depth).fields == Redact(p, v, depth).fields;
        case Arr(items) =>
          forall i | 0 <= i < |items|
            ensures Redact(p, Redact(p, items[i], depth + 1), depth + 1) == Redact(p, items[i], depth + 1)
          {
            RedactTwice(p, items[i], depth + 1);
          }
          assert Redact(p, Redact(p, v, depth), depth).items == Redact(p, v, depth).items;
        case _ =>
      }
    }
  }

  /** No value under a secret-looking key survives, and nothing is nested deeper than the limit. */
  predicate Clean(p: Patterns, v: Json, depth: nat)
    decreases v
  {
    match v
    case Obj(fields) =>
      depth <= 8 && forall k :: k in fields ==>
        if p.secretKey(k) then fields[k] == Str("***") else Clean(p, fields[k], depth + 1)
    case Arr(items) => depth <= 8 && forall i :: 0 <= i < |items| ==> Clean(p, items[i], depth + 1)
    case Str(s) => s == if depth <= 8 then p.scrub(s) else "<max-depth>"
    case _ => depth <= 8
  }

  /** Redaction leaves no secret behind, and nothing too deep. */
  lemma {:induction false} RedactCleans(p: Patterns, v: Json, depth: nat)
    requires Settles(p) && depth <= MAX_DEPTH + 1
    ensures Clean(p, Redact(p, v, depth), depth)
    decreases v
  {
    if depth <= MAX_DEPTH {
      match v {
        case Obj(fields) =>
          forall k | k in fields && !p.secretKey(k)
            ensures Clean(p, Redact(p, fields[k], depth + 1), depth + 1)
          {
            RedactCleans(p, fields[k], depth + 1);
          }
        case Arr(items) =>
          forall i | 0 <= i < |items|
            ensures Clean(p, Redact(p, items[i], depth + 1), depth + 1)
          {
            RedactCleans(p, items[i], depth + 1);
          }
        case _ =>
      }
    }
  }

  /** Redaction leaves alone exactly the clean values. */
  lemma {:induction false} FixedIffClean(p: Patterns, v: Json, depth: nat)
    requires Settles(p) && depth <= MAX_DEPTH + 1
    ensures Redact(p, v, depth) == v <==> Clean(p, v, depth)
  {
    RedactCleans(p, v, depth);
    if Clean(p, v, depth) {
      CleanIsFixed(p, v, depth);
    }
  }

  lemma {:induction false} CleanIsFixed(p: Patterns, v: Json, depth: nat)
    requires Clean(p, v, depth)
    ensures Redact(p, v, depth) == v
    decreases v
  {
    if depth <= MAX_DEPTH {
      match v {
        case Obj(fields) =>
          forall k | k in fields && !p.secretKey(k)
            ensures Redact(p, fields[k], depth + 1) == fields[k]
          {
            CleanIsFixed(p, fields[k], depth + 1);
          }
        case Arr(items) =>
          forall i | 0 <= i < |items|
            ensures Redact(p, items[i], depth + 1) == items[i]
          {
            CleanIsFixed(p, items[i], depth + 1);
          }
        case _ =>
      }
    }
  }
}
