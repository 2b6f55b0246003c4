/**
 JSON documents, JSON pointers (RFC 6901) and the two JSON Patch operations the admission
 webhook emits (sections 4.1 and 4.3 of RFC 6902).
 */
module JsonPatch {
  import opened Bytes

  datatype Json =
    | Null
    | Bool(value: bool)
    | Number(number: int)
    | Str(text: string)
    | Arr(items: seq<Json>)
    | Obj(fields: map<string, Json>)

  // ------------------------------------ pointers -----------------------------------

  function Escape(token: string): string {
    if token == [] then []
    else (if token[0] == '~' then "~0" else if token[0] == '/' then "~1" else [token[0]]) + Escape(token[1..])
  }

  function Unescape(text: string): string {
    if text == [] then []
    else if text[0] == '~' && |text| > 1 && text[1] == '1' then "/" + Unescape(text[2..])
    else if text[0] == '~' && |text| > 1 && text[1] == '0' then "~" + Unescape(text[2..])
    else [text[0]] + Unescape(text[1..])
  }

  /** The text between slashes. */
  function Split(text: string): (parts: seq<string>)
    ensures |parts| > 0
  {
    if text == [] then [[]]
    else
      var rest := Split(text[1..]);
      if text[0] == '/' then [[]] + rest else [[text[0]] + rest[0]] + rest[1..]
  }

  function UnescapeAll(parts: seq<string>): seq<string> {
    if parts == [] then [] else [Unescape(parts[0])] + UnescapeAll(parts[1..])
  }

  function Pointer(tokens: seq<string>): string {
    if tokens == [] then [] else "/" + Escape(tokens[0]) + Pointer(tokens[1..])
  }

  function ParsePointer(text: string): Option<seq<string>> {
    if text == [] then Some([])
    else if text[0] != '/' then None
    else Some(UnescapeAll(Split(text[1..])))
  }

  lemma {:induction false} UnescapeEscape(token: string)
    ensures Unescape(Escape(token)) == token
    ensures '/' !in Escape(token)
  {
    if token != [] {
      UnescapeEscape(token[1..]);
      var head := if token[0] == '~' then "~0" else if token[0] == '/' then "~1" else [token[0]];
      assert Escape(token) == head + Escape(token[1..]);
      assert Escape(token)[|head|..] == Escape(token[1..]);
    }
  }

  lemma {:induction false} SplitAtSlash(part: string, rest: string)
    requires '/' !in part
    ensures Split(part + "/" + rest) == [part] + Split(rest)
    ensures Split(part) == [part]
  {
    if part == [] {
      assert part + "/" + rest == "/" + rest;
    } else {
      SplitAtSlash(part[1..], rest);
      var text := part + "/" + rest;
      assert text[1..] == part[1..] + "/" + rest;
      assert part == [part[0]] + part[1..];
      assert Split(text[1..]) == [part[1..]] + Split(rest);
      assert Split(text) == [[part[0]] + part[1..]] + Split(rest);
    }
  }

  lemma {:induction false} SplitSpelled(tokens: seq<string>)
    requires tokens != []
    ensures Pointer(tokens) != [] && Pointer(tokens)[0] == '/'
    ensures UnescapeAll(Split(Pointer(tokens)[1..])) == tokens
  {
    hide Escape, Unescape, Split;
    var part, rest := Escape(tokens[0]), Pointer(tokens[1..]);
    UnescapeEscape(tokens[0]);
    assert Pointer(tokens)[1..] == part + rest;
    assert tokens == [tokens[0]] + tokens[1..];
    if tokens[1..] == [] {
      SplitAtSlash(part, "");
      assert part + rest == part;
      assert UnescapeAll([part]) == [Unescape(part)] + UnescapeAll([]);
    } else {
      SplitSpelled(tokens[1..]);
      assert rest == "/" + rest[1..];
      assert part + rest == part + "/" + rest[1..];
      SplitAtSlash(part, rest[1..]);
      var parts := Split(rest[1..]);
      assert ([part] + parts)[1..] == parts;
      assert UnescapeAll([part] + parts) == [Unescape(part)] + UnescapeAll(parts);
    }
  }

  /** Reading a pointer gives back the tokens it spells. */
  lemma ParsePointerSpelled(tokens: seq<string>)
    ensures ParsePointer(Pointer(tokens)) == Some(tokens)
  {
    hide Escape, Unescape, Split;
    if tokens != [] {
      SplitSpelled(tokens);
    }
  }

  /** A last part written by hand is read back unescaped, as long as it has no slash. */
  lemma {:induction false} SplitByHand(tokens: seq<string>, last: string)
    requires '/' !in last
    ensures var text := Pointer(tokens) + "/" + last;
            text[0] == '/' && UnescapeAll(Split(text[1..])) == tokens + [Unescape(last)]
  {
    hide Escape, Unescape, Split;
    var text := Pointer(tokens) + "/" + last;
    if tokens == [] {
      assert text[1..] == last;
      SplitAtSlash(last, "");
      assert UnescapeAll([last]) == [Unescape(last)] + UnescapeAll([]);
    } else {
      var part, rest := Escape(tokens[0]), Pointer(tokens[1..]) + "/" + last;
      UnescapeEscape(tokens[0]);
      SplitByHand(tokens[1..], last);
      assert text[1..] == part + rest;
      assert part + rest == part + "/" + rest[1..];
      SplitAtSlash(part, rest[1..]);
      var parts := Split(rest[1..]);
      assert ([part] + parts)[1..] == parts;
      assert UnescapeAll([part] + parts) == [Unescape(part)] + UnescapeAll(parts);
      assert tokens + [Unescape(last)] == [tokens[0]] + (tokens[1..] + [Unescape(last)]);
    }
  }

  lemma ParsePointerByHand(tokens: seq<string>, last: string)
    requires '/' !in last
    ensures ParsePointer(Pointer(tokens) + "/" + last) == Some(tokens + [Unescape(last)])
  {
    hide Escape, Unescape, Split, Pointer;
    SplitByHand(tokens, last);
  }

  // ------------------------------------ indices ------------------------------------

  function Decimal(n: nat): (digits: string)
    ensures |digits| > 0
  {
    var last := ['0' + (n % 10) as char];
    if n < 10 then last else Decimal(n / 10) + last
  }

  function DigitsValue(digits: string): Option<nat> {
    if digits == [] then Some(0)
    else
      var last := digits[|digits| - 1];
      match DigitsValue(digits[..|digits| - 1])
      case None => None
      case Some(n) => if '0' <= last <= '9' then Some(10 * n + (last as nat - '0' as nat)) else None
  }

  /** An array index: decimal digits without a leading zero. */
  function ParseIndex(token: string): Option<nat> {
    if token == [] || (token[0] == '0' && |token| > 1) then None else DigitsValue(token)
  }

  lemma {:induction false} DecimalDigits(n: nat)
    ensures DigitsValue(Decimal(n)) == Some(n)
    ensures Decimal(n)[0] == '0' ==> n == 0
    ensures n == 0 ==> |Decimal(n)| == 1
  {
    var last := '0' + (n % 10) as char;
    if n < 10 {
      assert Decimal(n) == [last];
      assert Decimal(n)[..0] == [];
    } else {
      DecimalDigits(n / 10);
      assert Decimal(n)[..|Decimal(n)| - 1] == Decimal(n / 10);
      assert Decimal(n)[|Decimal(n)| - 1] == last;
    }
  }

  lemma IndexRoundTrip(n: nat)
    ensures ParseIndex(Decimal(n)) == Some(n)
  {
    DecimalDigits(n);
  }

  // ------------------------------- reading and writing ------------------------------

  function Child(v: Json, token: string): Option<Json> {
    match v
    case Obj(fields) => if token in fields then Some(fields[token]) else None
    case Arr(items) =>
      (match ParseIndex(token)
       case Some(i) => if i < |items| then Some(items[i]) else None
       case None => None)
    case _ => None
  }

  /** The document with an existing child replaced. */
  function Put(v: Json, token: string, x: Json): Json
    requires Child(v, token).Some?
  {
    match v
    case Obj(fields) => Obj(fields[token := x])
    case Arr(items) => Arr(items[ParseIndex(token).value := x])
  }

  function Get(v: Json, tokens: seq<string>): Option<Json> {
    if tokens == [] then Some(v)
    else match Child(v, tokens[0])
      case None => None
      case Some(w) => Get(w, tokens[1..])
  }

  /** The document with the value at an existing place replaced. */
  function Update(v: Json, tokens: seq<string>, x: Json): Json
    requires Get(v, tokens).Some?
  {
    if tokens == [] then x else Put(v, tokens[0], Update(Child(v, tokens[0]).value, tokens[1..], x))
  }

  datatype Verb = Add | Replace

  datatype Op = Op(verb: Verb, path: string, value: Json)

  /** What an operation does in the container its last token names a place of: `add` sets a
      member, inserts before an index or appends at `-`; `replace` needs the place to exist. */
  function Perform(verb: Verb, v: Json, token: string, x: Json): Option<Json> {
    if verb == Replace then
      if Child(v, token).Some? then Some(Put(v, token, x)) else None
    else match v
      case Obj(fields) => Some(Obj(fields[token := x]))
      case Arr(items) =>
        if token == "-" then Some(Arr(items + [x]))
        else (match ParseIndex(token)
              case Some(i) => if i <= |items| then Some(Arr(items[..i] + [x] + items[i..])) else None
              case None => None)
      case _ => None
  }

  function PerformAt(verb: Verb, v: Json, tokens: seq<string>, x: Json): Option<Json> {
    if tokens == [] then Some(x)
    else if |tokens| == 1 then Perform(verb, v, tokens[0], x)
    else match Child(v, tokens[0])
      case None => None
      case Some(w) =>
        match PerformAt(verb, w, tokens[1..], x)
        case None => None
        case Some(y) => Some(Put(v, tokens[0], y))
  }

  function Apply(op: Op, v: Json): Option<Json> {
    match ParsePointer(op.path)
    case None => None
    case Some(tokens) => PerformAt(op.verb, v, tokens, op.value)
  }

  /** One by one; the first operation that fails fails the patch. */
  function ApplyAll(ops: seq<Op>, v: Json): Option<Json> {
    if ops == [] then Some(v)
    else match Apply(ops[0], v)
      case None => None
      case Some(w) => ApplyAll(ops[1..], w)
  }

  lemma {:induction false} ApplyAppend(a: seq<Op>, b: seq<Op>, v: Json)
    ensures ApplyAll(a + b, v)
         == match ApplyAll(a, v) { case None => None case Some(w) => ApplyAll(b, w) }
  {
    hide Apply;
    if a == [] {
      assert a + b == b;
    } else {
      assert (a + b)[1..] == a[1..] + b;
      match Apply(a[0], v) {
        case None =>
        case Some(w) => ApplyAppend(a[1..], b, w);
      }
    }
  }

  /** An operation works on the value its path leads to, and leaves everything else alone. */
  lemma {:induction false} PerformDeep(verb: Verb, v: Json, base: seq<string>, token: string, x: Json)
    ensures PerformAt(verb, v, base + [token], x)
         == match Get(v, base) {
              case None => None
              case Some(w) =>
                match Perform(verb, w, token, x) { case None => None case Some(y) => Some(Update(v, base, y)) }
            }
    decreases |base|
  {
    hide Perform, Child;
    if base == [] {
      assert base + [token] == [token];
    } else {
      assert (base + [token])[1..] == base[1..] + [token];
      assert (base + [token])[0] == base[0];
      match Child(v, base[0]) {
        case None =>
        case Some(w) => PerformDeep(verb, w, base[1..], token, x);
      }
    }
  }

  lemma ApplyAt(verb: Verb, v: Json, base: seq<string>, token: string, x: Json)
    requires Get(v, base).Some?
    ensures Apply(Op(verb, Pointer(base + [token]), x), v)
         == match Perform(verb, Get(v, base).value, token, x) {
              case None => None
              case Some(y) => Some(Update(v, base, y))
            }
  {
    hide Perform, Child, Update;
    ParsePointerSpelled(base + [token]);
    PerformDeep(verb, v, base, token, x);
  }

  /** The same for a path whose last part was written by hand. */
  lemma ApplyByHand(verb: Verb, v: Json, base: seq<string>, last: string, x: Json)
    requires Get(v, base).Some? && '/' !in last
    ensures Apply(Op(verb, Pointer(base) + "/" + last, x), v)
         == match Perform(verb, Get(v, base).value, Unescape(last), x) {
              case None => None
              case Some(y) => Some(Update(v, base, y))
            }
  {
    hide Perform, Child, Update, Unescape;
    ParsePointerByHand(base, last);
    PerformDeep(verb, v, base, Unescape(last), x);
  }

  /** Writing back what was there changes nothing. */
  lemma {:induction false} UpdateSame(v: Json, tokens: seq<string>)
    requires Get(v, tokens).Some?
    ensures Update(v, tokens, Get(v, tokens).value) == v
  {
    if tokens != [] {
      UpdateSame(Child(v, tokens[0]).value, tokens[1..]);
      match v {
        case Obj(fields) => assert fields[tokens[0] := fields[tokens[0]]] == fields;
        case Arr(items) => var i := ParseIndex(tokens[0]).value; assert items[i := items[i]] == items;
      }
    }
  }
}
