/** Custom packet strings (awg_manager/src/obfuscation.rs): a sequence of tags, and the recogniser of it. */
module Cps {
  import opened Common
  import opened Text

  datatype Tag =
    | Hex(hex: string)
    | Random(digits: string)
    | Letters(digits: string)
    | Digits(digits: string)
    | Time
    | Count
  {
    predicate Valid() {
      match this
      case Hex(hex) => hex != [] && |hex| % 2 == 0 && forall c <- hex :: IsHexDigit(c)
      case Random(digits) => 1 <= |digits| <= 4 && AllDigits(digits)
      case Letters(digits) => 1 <= |digits| <= 4 && AllDigits(digits)
      case Digits(digits) => 1 <= |digits| <= 4 && AllDigits(digits)
      case _ => true
    }

    function Body(): string {
      match this
      case Hex(hex) => "b 0x" + hex
      case Random(digits) => "r " + digits
      case Letters(digits) => "rc " + digits
      case Digits(digits) => "rd " + digits
      case Time => "t"
      case Count => "c"
    }

    function Print(): string {
      ['<'] + Body() + ['>']
    }
  }

  predicate IsHexDigit(c: char) {
    '0' <= c <= '9' || 'a' <= c <= 'f' || 'A' <= c <= 'F'
  }

  function PrintAll(tags: seq<Tag>): string {
    if tags == [] then [] else tags[0].Print() + PrintAll(tags[1..])
  }

  /** How many characters at the start of a text are hex digits. */
  function HexRun(s: string): (n: nat)
    ensures n <= |s| && (forall k :: 0 <= k < n ==> IsHexDigit(s[k])) && (n < |s| ==> !IsHexDigit(s[n]))
  {
    if s == [] || !IsHexDigit(s[0]) then 0 else 1 + HexRun(s[1..])
  }

  function DigitRun(s: string): (n: nat)
    ensures n <= |s| && (forall k :: 0 <= k < n ==> IsDigit(s[k])) && (n < |s| ==> !IsDigit(s[n]))
  {
    if s == [] || !IsDigit(s[0]) then 0 else 1 + DigitRun(s[1..])
  }

  /** What follows the number of a random tag. */
  function AfterNumber(number: string): Option<string> {
    var count := DigitRun(number);
    if 1 <= count <= 4 then Some(number[count..]) else None
  }

  /** What follows the content of a tag. */
  function AfterBody(body: string): Option<string> {
    if "b 0x" <= body then
      var hex := body[4..];
      var count := HexRun(hex);
      if count == 0 || count % 2 != 0 then None else Some(hex[count..])
    else if "r " <= body then AfterNumber(body[2..])
    else if "rc " <= body then AfterNumber(body[3..])
    else if "rd " <= body then AfterNumber(body[3..])
    else if "t" <= body || "c" <= body then Some(body[1..])
    else None
  }

  /** One turn of the recogniser: the text after its first tag. */
  function AfterTag(text: string): (r: Option<string>)
    ensures r.Some? ==> |r.value| < |text|
  {
    if text == [] || text[0] != '<' then None
    else
      match AfterBody(text[1..])
      case None => None
      case Some(after) => if after == [] || after[0] != '>' then None else Some(after[1..])
  }

  /** Tags to the end of the text. */
  predicate AllTags(text: string) {
    text == [] || (AfterTag(text).Some? && AllTags(AfterTag(text).value))
  }

  /** `is_cps`. */
  method IsCps(text: string) returns (ok: bool)
    ensures ok <==> text != [] && AllTags(text)
  {
    hide AfterTag;
    var rest := text;
    if rest == [] {
      return false;
    }
    while rest != []
      invariant AllTags(text) <==> AllTags(rest)
      decreases |rest|
    {
      var next := AfterTag(rest);
      if next.None? {
        return false;
      }
      Shrinks(rest);
      rest := next.value;
    }
    return true;
  }

  lemma Shrinks(text: string)
    ensures AfterTag(text).Some? ==> |AfterTag(text).value| < |text|
  {
  }

  lemma {:induction false} HexRunIs(hex: string, rest: string)
    requires (forall c <- hex :: IsHexDigit(c)) && rest != [] && rest[0] == '>'
    ensures HexRun(hex + rest) == |hex|
  {
    if hex == [] {
      assert hex + rest == rest;
    } else {
      assert (hex + rest)[1..] == hex[1..] + rest && (hex + rest)[0] == hex[0] && hex[0] in hex;
      HexRunIs(hex[1..], rest);
    }
  }

  lemma {:induction false} DigitRunIs(digits: string, rest: string)
    requires AllDigits(digits) && rest != [] && rest[0] == '>'
    ensures DigitRun(digits + rest) == |digits|
  {
    if digits == [] {
      assert digits + rest == rest;
    } else {
      assert (digits + rest)[1..] == digits[1..] + rest && (digits + rest)[0] == digits[0] && digits[0] in digits;
      DigitRunIs(digits[1..], rest);
    }
  }

  lemma NumberIs(digits: string, rest: string)
    requires 1 <= |digits| <= 4 && AllDigits(digits) && rest != [] && rest[0] == '>'
    ensures AfterNumber(digits + rest) == Some(rest)
  {
    hide DigitRun;
    DigitRunIs(digits, rest);
    assert (digits + rest)[|digits|..] == rest;
  }

  /** Which word a body starts with shows in its first characters. */
  lemma Heads(body: string)
    ensures "b 0x" <= body ==> |body| >= 4 && body[0] == 'b'
    ensures "r " <= body <==> |body| >= 2 && body[0] == 'r' && body[1] == ' '
    ensures "rc " <= body <==> |body| >= 3 && body[0] == 'r' && body[1] == 'c' && body[2] == ' '
    ensures "rd " <= body <==> |body| >= 3 && body[0] == 'r' && body[1] == 'd' && body[2] == ' '
    ensures "t" <= body <==> |body| >= 1 && body[0] == 't'
    ensures "c" <= body <==> |body| >= 1 && body[0] == 'c'
  {
  }

  /** A printed tag is recognised, and nothing of what follows it is taken. */
  lemma BodyIsRead(tag: Tag, rest: string)
    requires tag.Valid() && rest != [] && rest[0] == '>'
    ensures AfterBody(tag.Body() + rest) == Some(rest)
  {
    if tag.Hex? {
      HexIsRead(tag.hex, rest);
    } else if tag.Time? || tag.Count? {
      Heads(tag.Body() + rest);
      assert (tag.Body() + rest)[1..] == rest;
    } else {
      NumberIs(tag.digits, rest);
      WordIsRead(tag, rest);
    }
  }

  lemma HexIsRead(hex: string, rest: string)
    requires Hex(hex).Valid() && rest != [] && rest[0] == '>'
    ensures AfterBody("b 0x" + hex + rest) == Some(rest)
  {
    hide HexRun;
    var body := "b 0x" + hex + rest;
    assert body[4..] == hex + rest;
    assert "b 0x" <= body;
    HexRunIs(hex, rest);
    assert (hex + rest)[|hex|..] == rest;
  }

  lemma WordIsRead(tag: Tag, rest: string)
    requires tag.Random? || tag.Letters? || tag.Digits?
    ensures AfterBody(tag.Body() + rest) == AfterNumber(tag.digits + rest)
  {
    hide AfterNumber, AfterBody;
    match tag {
      case Random(digits) => Separate("r ", digits, rest);
      case Letters(digits) => Separate("rc ", digits, rest);
      case Digits(digits) => Separate("rd ", digits, rest);
    }
    Heads(tag.Body() + rest);
    AfterWord(tag.Body() + rest);
  }

  lemma Separate(word: string, digits: string, rest: string)
    ensures word <= word + digits + rest && (word + digits + rest)[|word|..] == digits + rest
  {
  }

  lemma TagIsRead(tag: Tag, rest: string)
    requires tag.Valid()
    ensures AfterTag(tag.Print() + rest) == Some(rest)
  {
    hide AfterBody;
    var text := tag.Print() + rest;
    assert text[1..] == tag.Body() + (['>'] + rest);
    BodyIsRead(tag, ['>'] + rest);
    assert (['>'] + rest)[1..] == rest;
  }

  /** And a tag that is recognised is one that is printed so. */
  lemma ReadNumber(number: string, rest: string)
    requires AfterNumber(number) == Some(rest)
    ensures var digits := number[..DigitRun(number)]; 1 <= |digits| <= 4 && AllDigits(digits) && number == digits + rest
  {
  }

  lemma ReadHex(body: string, rest: string) returns (tag: Tag)
    requires "b 0x" <= body && AfterBody(body) == Some(rest)
    ensures tag.Valid() && body == tag.Body() + rest
  {
    var hex := body[4..];
    var digits := hex[..HexRun(hex)];
    tag := Hex(digits);
    assert forall c <- digits :: IsHexDigit(c);
    assert hex == digits + rest;
    assert body == "b 0x" + hex;
  }

  ghost predicate HasWord(body: string) {
    "r " <= body || "rc " <= body || "rd " <= body
  }

  ghost function WordLength(body: string): (n: nat)
    requires HasWord(body)
    ensures n <= |body|
  {
    if "r " <= body then 2 else 3
  }

  lemma AfterWord(body: string)
    requires !("b 0x" <= body) && HasWord(body)
    ensures AfterBody(body) == AfterNumber(body[WordLength(body)..])
  {
    hide AfterNumber, HexRun;
  }

  lemma TagOfWord(body: string, digits: string, rest: string) returns (tag: Tag)
    requires HasWord(body) && body[WordLength(body)..] == digits + rest && Random(digits).Valid()
    ensures tag.Valid() && body == tag.Body() + rest
  {
    if "r " <= body {
      tag := Random(digits);
      Rejoin("r ", body, digits, rest);
    } else if "rc " <= body {
      tag := Letters(digits);
      Rejoin("rc ", body, digits, rest);
    } else {
      tag := Digits(digits);
      Rejoin("rd ", body, digits, rest);
    }
  }

  lemma Rejoin(word: string, body: string, digits: string, rest: string)
    requires word <= body && body[|word|..] == digits + rest
    ensures body == word + digits + rest
  {
    assert body == word + body[|word|..];
    assert word + (digits + rest) == word + digits + rest;
  }

  lemma ReadWord(body: string, rest: string) returns (tag: Tag)
    requires !("b 0x" <= body) && HasWord(body) && AfterBody(body) == Some(rest)
    ensures tag.Valid() && body == tag.Body() + rest
  {
    hide AfterNumber, DigitRun, AfterBody, HasWord, WordLength;
    AfterWord(body);
    var number := body[WordLength(body)..];
    ReadNumber(number, rest);
    tag := TagOfWord(body, number[..DigitRun(number)], rest);
  }

  lemma ReadBody(body: string, rest: string) returns (tag: Tag)
    requires AfterBody(body) == Some(rest)
    ensures tag.Valid() && body == tag.Body() + rest
  {
    if "b 0x" <= body {
      tag := ReadHex(body, rest);
    } else if HasWord(body) {
      tag := ReadWord(body, rest);
    } else {
      hide AfterNumber, HexRun;
      Heads(body);
      tag := if "t" <= body then Time else Count;
      assert body == [body[0]] + body[1..];
    }
  }

  lemma ReadTag(text: string, rest: string) returns (tag: Tag)
    requires AfterTag(text) == Some(rest)
    ensures tag.Valid() && text == tag.Print() + rest
  {
    hide AfterBody, Tag.Valid, Tag.Body;
    var after := AfterBody(text[1..]).value;
    assert after == ['>'] + rest;
    tag := ReadBody(text[1..], after);
    assert text == ['<'] + text[1..];
    assert ['<'] + (tag.Body() + (['>'] + rest)) == ['<'] + tag.Body() + ['>'] + rest;
  }

  ghost predicate AllValid(tags: seq<Tag>) {
    forall tag <- tags :: tag.Valid()
  }

  lemma {:induction false} PrintedTags(tags: seq<Tag>)
    requires AllValid(tags)
    ensures AllTags(PrintAll(tags))
  {
    hide AfterTag, Tag.Valid, Tag.Print;
    if tags != [] {
      TagIsRead(tags[0], PrintAll(tags[1..]));
      PrintedTags(tags[1..]);
    }
  }

  lemma {:induction false} ReadTags(text: string) returns (tags: seq<Tag>)
    requires AllTags(text)
    ensures AllValid(tags) && PrintAll(tags) == text
    decreases |text|
  {
    hide AfterTag, Tag.Valid, Tag.Print;
    if text == [] {
      tags := [];
    } else {
      var rest := AfterTag(text).value;
      Shrinks(text);
      var tag := ReadTag(text, rest);
      var more := ReadTags(rest);
      tags := [tag] + more;
      assert tags[1..] == more;
    }
  }

  /** The recogniser accepts exactly the printed sequences of one or more tags. */
  lemma CpsGrammar(text: string)
    ensures text != [] && AllTags(text) <==> exists tags: seq<Tag> :: tags != [] && AllValid(tags) && PrintAll(tags) == text
  {
    hide AfterTag, Tag.Valid, AllTags;
    if text != [] && AllTags(text) {
      var tags := ReadTags(text);
      assert tags != [] && AllValid(tags) && PrintAll(tags) == text;
    }
    if tags: seq<Tag> :| tags != [] && AllValid(tags) && PrintAll(tags) == text {
      PrintedTags(tags);
    }
  }
}
