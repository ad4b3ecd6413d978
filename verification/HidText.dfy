/**
 Typing text: the key combinations for a string under the US layout, and what a host with that layout makes of them.
 */
module HidText {
  import opened Common
  import opened Hid
  import HidTransaction

  const SHIFTED_DIGITS: map<char, string> := map[
    '!' := "Digit1", '@' := "Digit2", '#' := "Digit3", '$' := "Digit4", '%' := "Digit5",
    '^' := "Digit6", '&' := "Digit7", '*' := "Digit8", '(' := "Digit9", ')' := "Digit0"
  ]

  const PUNCTUATION: map<char, (string, bool)> := map[
    '-' := ("Minus", false), '_' := ("Minus", true),
    '=' := ("Equal", false), '+' := ("Equal", true),
    '[' := ("BracketLeft", false), '{' := ("BracketLeft", true),
    ']' := ("BracketRight", false), '}' := ("BracketRight", true),
    '\\' := ("Backslash", false), '|' := ("Backslash", true),
    ';' := ("Semicolon", false), ':' := ("Semicolon", true),
    '\'' := ("Quote", false), '"' := ("Quote", true),
    '`' := ("Backquote", false), '~' := ("Backquote", true),
    ',' := ("Comma", false), '<' := ("Comma", true),
    '.' := ("Period", false), '>' := ("Period", true),
    '/' := ("Slash", false), '?' := ("Slash", true)
  ]

  function Upper(c: char): char
    requires 'a' <= c <= 'z'
  {
    ((c as int) - 32) as char
  }

  /** The key for a character and whether it is shifted; None where the layout has no such key. */
  function KeyFor(c: char): Option<(string, bool)> {
    if 'a' <= c <= 'z' then Some(("Key" + [Upper(c)], false))
    else if 'A' <= c <= 'Z' then Some(("Key" + [c], true))
    else if '0' <= c <= '9' then Some(("Digit" + [c], false))
    else if c in SHIFTED_DIGITS then Some((SHIFTED_DIGITS[c], true))
    else if c in PUNCTUATION then Some(PUNCTUATION[c])
    else if c == ' ' then Some(("Space", false))
    else if c == '\n' then Some(("Enter", false))
    else if c == '\t' then Some(("Tab", false))
    else None
  }

  // ----- the host -----

  /** What the digit keys 0 to 9 type with shift. */
  const DIGITS_SHIFTED: string := ")!@#$%^&*("

  /** What the punctuation keys of a US keyboard type, without and with shift. */
  const LAYOUT: map<string, (char, char)> := map[
    "Minus" := ('-', '_'), "Equal" := ('=', '+'), "BracketLeft" := ('[', '{'), "BracketRight" := (']', '}'),
    "Backslash" := ('\\', '|'), "Semicolon" := (';', ':'), "Quote" := ('\'', '"'), "Backquote" := ('`', '~'),
    "Comma" := (',', '<'), "Period" := ('.', '>'), "Slash" := ('/', '?')
  ]

  function Lower(c: char): char
    requires 'A' <= c <= 'Z'
  {
    ((c as int) + 32) as char
  }

  /** What the host receives for one key, with shift or without; None for a key that types nothing. */
  function HostReads(code: string, shift: bool): Option<char> {
    if |code| == 4 && code[..3] == "Key" && 'A' <= code[3] <= 'Z' then Some(if shift then code[3] else Lower(code[3]))
    else if |code| == 6 && code[..5] == "Digit" && '0' <= code[5] <= '9' then
      Some(if shift then DIGITS_SHIFTED[(code[5] as int) - ('0' as int)] else code[5])
    else if code == "Space" then Some(' ')
    else if code == "Enter" then Some('\n')
    else if code == "Tab" then Some('\t')
    else if code in LAYOUT then Some(if shift then LAYOUT[code].1 else LAYOUT[code].0)
    else None
  }

  ghost predicate ReadsBack(c: char, code: string, shift: bool) {
    HostReads(code, shift) == Some(c)
  }

  lemma LetterReadsBack(c: char)
    requires 'A' <= c <= 'Z'
    ensures ReadsBack(c, "Key" + [c], true) && ReadsBack(Lower(c), "Key" + [c], false)
  {
  }

  lemma DigitReadsBack(c: char)
    requires '0' <= c <= '9'
    ensures ReadsBack(c, "Digit" + [c], false)
    ensures ReadsBack(DIGITS_SHIFTED[(c as int) - ('0' as int)], "Digit" + [c], true)
  {
    assert ("Digit" + [c])[..5] == "Digit";
  }

  lemma ShiftedDigitReadsBack(c: char)
    requires c in SHIFTED_DIGITS
    ensures ReadsBack(c, SHIFTED_DIGITS[c], true)
  {
    var digit := SHIFTED_DIGITS[c][5];
    assert SHIFTED_DIGITS[c] == "Digit" + [digit];
    DigitReadsBack(digit);
  }

  lemma PunctuationReadsBack(c: char)
    requires c in PUNCTUATION
    ensures ReadsBack(c, PUNCTUATION[c].0, PUNCTUATION[c].1)
  {
  }

  // ----- the table -----

  predicate Supported(c: char) {
    ' ' <= c <= '~' || c == '\n' || c == '\t'
  }

  /** The table covers printable ASCII, tab and newline, and nothing else. */
  lemma TableIsTotal(c: char)
    ensures KeyFor(c).Some? <==> Supported(c)
  {
  }

  lemma KeyReadsBack(c: char)
    requires Supported(c)
    ensures KeyFor(c).Some? && ReadsBack(c, KeyFor(c).value.0, KeyFor(c).value.1)
  {
    TableIsTotal(c);
    if 'a' <= c <= 'z' {
      LetterReadsBack(Upper(c));
      assert Lower(Upper(c)) == c;
    } else if 'A' <= c <= 'Z' {
      LetterReadsBack(c);
    } else if '0' <= c <= '9' {
      DigitReadsBack(c);
    } else if c in SHIFTED_DIGITS {
      ShiftedDigitReadsBack(c);
    } else if c in PUNCTUATION {
      PunctuationReadsBack(c);
    }
  }

  /** Two characters never share a key and a shift. */
  lemma TableIsInjective(c: char, d: char)
    requires Supported(c) && Supported(d) && KeyFor(c) == KeyFor(d)
    ensures c == d
  {
    KeyReadsBack(c);
    KeyReadsBack(d);
  }

  // ----- typing -----

  /** The actions that type the text after those that are `done`, or the first character without a key. */
  function ActionsAfter(done: seq<Action>, text: string, interKeyMs: nat): Result<seq<Action>, char>
    decreases |text|
  {
    if text == [] then Ok(done)
    else if KeyFor(text[0]).None? then Err(text[0])
    else ActionsAfter(done + ActionsForKey(KeyFor(text[0]).value, interKeyMs), text[1..], interKeyMs)
  }

  function ActionsFor(text: string, interKeyMs: nat): Result<seq<Action>, char> {
    ActionsAfter([], text, interKeyMs)
  }

  function ActionsForKey(key: (string, bool), interKeyMs: nat): seq<Action> {
    [Combo(if key.1 then ["ShiftLeft"] else [], [key.0])] + if interKeyMs > 0 then [Wait(interKeyMs)] else []
  }

  method TextToHidActions(text: string, interKeyMs: nat) returns (r: Result<seq<Action>, char>)
    ensures r == ActionsFor(text, interKeyMs)
  {
    var actions: seq<Action> := [];
    var i := 0;
    assert text[0..] == text;
    while i < |text|
      invariant i <= |text| && ActionsFor(text, interKeyMs) == ActionsAfter(actions, text[i..], interKeyMs)
    {
      assert text[i..][1..] == text[i + 1..];
      var found := KeyFor(text[i]);
      if found.None? { return Err(text[i]); }
      ghost var next := actions + ActionsForKey(found.value, interKeyMs);
      var (key, shift) := found.value;
      actions := actions + [Combo(if shift then ["ShiftLeft"] else [], [key])];
      if interKeyMs > 0 {
        actions := actions + [Wait(interKeyMs)];
      }
      assert actions == next;
      i := i + 1;
    }
    assert text[i..] == [];
    r := Ok(actions);
  }

  // ----- what the host receives -----

  /** The text of one action: a single key, with at most the left shift. */
  ghost function Typed(action: Action): string {
    if action.Combo? && |action.keys| == 1 && (action.modifiers == [] || action.modifiers == ["ShiftLeft"]) then
      match HostReads(action.keys[0], action.modifiers != [])
      case Some(c) => [c]
      case None => []
    else []
  }

  ghost function TypedAll(actions: seq<Action>): string {
    if actions == [] then [] else Typed(actions[0]) + TypedAll(actions[1..])
  }

  lemma TypedFirst(first: Action, rest: seq<Action>)
    ensures TypedAll([first] + rest) == Typed(first) + TypedAll(rest)
  {
    assert ([first] + rest)[1..] == rest;
  }

  lemma {:induction false} TypedAppends(a: seq<Action>, b: seq<Action>)
    ensures TypedAll(a + b) == TypedAll(a) + TypedAll(b)
    decreases |a|
  {
    if a == [] {
      assert a + b == b;
    } else {
      TypedAppends(a[1..], b);
      assert a + b == [a[0]] + (a[1..] + b);
      TypedFirst(a[0], a[1..] + b);
      HidTransaction.Associates(Typed(a[0]), TypedAll(a[1..]), TypedAll(b));
    }
  }

  lemma KeyIsTyped(c: char, code: string, shift: bool, interKeyMs: nat)
    requires ReadsBack(c, code, shift)
    ensures TypedAll(ActionsForKey((code, shift), interKeyMs)) == [c]
  {
    var actions := ActionsForKey((code, shift), interKeyMs);
    assert Typed(actions[0]) == [c];
    assert actions[1..] == if interKeyMs > 0 then [Wait(interKeyMs)] else [];
    if interKeyMs > 0 {
      assert actions[1..][1..] == [];
      assert TypedAll(actions[1..]) == [];
    }
  }

  lemma NextKeyTyped(done: seq<Action>, c: char, interKeyMs: nat)
    requires Supported(c)
    ensures KeyFor(c).Some?
    ensures TypedAll(done + ActionsForKey(KeyFor(c).value, interKeyMs)) == TypedAll(done) + [c]
  {
    TableIsTotal(c);
    var key := KeyFor(c).value;
    KeyReadsBack(c);
    KeyIsTyped(c, key.0, key.1, interKeyMs);
    TypedAppends(done, ActionsForKey(key, interKeyMs));
  }

  ghost predicate AllSupported(text: string) {
    forall i :: 0 <= i < |text| ==> Supported(text[i])
  }

  lemma HeadAndTail<T>(a: seq<T>, s: seq<T>)
    requires s != []
    ensures a + [s[0]] + s[1..] == a + s
  {
  }

  lemma {:induction false} TextTyped(done: seq<Action>, text: string, interKeyMs: nat)
    requires AllSupported(text)
    ensures var r := ActionsAfter(done, text, interKeyMs);
            r.Ok? && TypedAll(r.value) == TypedAll(done) + text
    decreases |text|
  {
    if text == [] {
      assert TypedAll(done) + text == TypedAll(done);
    } else {
      NextKeyTyped(done, text[0], interKeyMs);
      TextTyped(done + ActionsForKey(KeyFor(text[0]).value, interKeyMs), text[1..], interKeyMs);
      HeadAndTail(TypedAll(done), text);
    }
  }

  /** A key, and after it a wait exactly when there is a delay. */
  ghost predicate KeyThenWait(actions: seq<Action>, at: nat, interKeyMs: nat) {
    && at < |actions| && actions[at].Combo?
    && (interKeyMs > 0 ==> at + 1 < |actions| && actions[at + 1] == Wait(interKeyMs))
  }

  /** Each character of an accepted text is one combination of keys, followed by the delay if there is one, and by nothing else. */
  lemma {:induction false} KeysAndDelays(done: seq<Action>, text: string, interKeyMs: nat)
    requires ActionsAfter(done, text, interKeyMs).Ok?
    ensures var actions := ActionsAfter(done, text, interKeyMs).value;
            && done <= actions
            && |actions| == |done| + (if interKeyMs > 0 then 2 * |text| else |text|)
            && forall i :: 0 <= i < |text| ==> KeyThenWait(actions, |done| + (if interKeyMs > 0 then 2 * i else i), interKeyMs)
    decreases |text|
  {
    if text != [] {
      var next := done + ActionsForKey(KeyFor(text[0]).value, interKeyMs);
      var actions := ActionsAfter(done, text, interKeyMs).value;
      KeysAndDelays(next, text[1..], interKeyMs);
      assert KeyThenWait(next, |done|, interKeyMs) && next <= actions;
      assert KeyThenWait(actions, |done|, interKeyMs);
      forall i | 0 < i < |text| ensures KeyThenWait(actions, |done| + (if interKeyMs > 0 then 2 * i else i), interKeyMs) {
        assert KeyThenWait(actions, |next| + (if interKeyMs > 0 then 2 * (i - 1) else i - 1), interKeyMs);
      }
    }
  }

  /** The error of a text that cannot be typed is its first unsupported character. */
  lemma {:induction false} UnsupportedReported(done: seq<Action>, text: string, interKeyMs: nat, i: nat)
    requires i < |text| && !Supported(text[i]) && AllSupported(text[..i])
    ensures ActionsAfter(done, text, interKeyMs) == Err(text[i])
    decreases |text|
  {
    TableIsTotal(text[0]);
    if i > 0 {
      assert text[..i][0] == text[0];
      assert text[1..][..i - 1] == text[..i][1..];
      UnsupportedReported(done + ActionsForKey(KeyFor(text[0]).value, interKeyMs), text[1..], interKeyMs, i - 1);
    }
  }

  lemma {:induction false} SomeUnsupported(text: string) returns (i: nat)
    requires !AllSupported(text)
    ensures i < |text| && !Supported(text[i]) && AllSupported(text[..i])
    decreases |text|
  {
    if !Supported(text[0]) {
      i := 0;
    } else {
      var k := SomeUnsupported(text[1..]);
      i := k + 1;
      assert forall j :: 0 < j < i ==> text[j] == text[1..][..k][j - 1];
    }
  }

  /** A text is accepted exactly when every character is supported, and is then typed as it is, whatever the delay. */
  lemma TextRoundTrip(text: string, interKeyMs: nat)
    ensures ActionsFor(text, interKeyMs).Ok? <==> AllSupported(text)
    ensures ActionsFor(text, interKeyMs).Ok? ==> TypedAll(ActionsFor(text, interKeyMs).value) == text
  {
    if AllSupported(text) {
      TextTyped([], text, interKeyMs);
    } else {
      var i := SomeUnsupported(text);
      UnsupportedReported([], text, interKeyMs, i);
    }
  }

  /** The batches of a transaction, joined, still type the text. */
  lemma BatchedTextRoundTrip(text: string, interKeyMs: nat)
    requires ActionsFor(text, interKeyMs).Ok?
    ensures TypedAll(Concat(Batches(HidTransaction.Submitted(ActionsFor(text, interKeyMs).value)))) == text
  {
    var actions := ActionsFor(text, interKeyMs).value;
    TextRoundTrip(text, interKeyMs);
    BatchesJoin(HidTransaction.Submitted(actions));
    if !EndsReleased(actions) {
      TypedAppends(actions, [ReleaseAll]);
      assert TypedAll([ReleaseAll]) == TypedAll([]) == [];
    }
  }

  /** A transaction that returns normally has typed the text once, if batches that are not accepted have no effect. */
  lemma TransactionTypesText(d: HidTransaction.Device, oracle: HidTransaction.Oracle, leased: HidTransaction.Log,
                             text: string, interKeyMs: nat, attempts: HidTransaction.Attempts, leak: HidTransaction.Leak)
    requires ActionsFor(text, interKeyMs).Ok? && forall n :: leak(n) == 0
    requires HidTransaction.Outcome(HidTransaction.Leased(oracle, leased, ActionsFor(text, interKeyMs).value, attempts)).Ok?
    ensures var run := HidTransaction.Leased(oracle, leased, ActionsFor(text, interKeyMs).value, attempts);
            TypedAll(HidTransaction.After(d, run.released, leak).executed)
            == TypedAll(HidTransaction.After(d, leased, leak).executed) + text
  {
    var actions := ActionsFor(text, interKeyMs).value;
    HidTransaction.NormalReturn(d, oracle, leased, actions, attempts, leak);
    TypedAppends(HidTransaction.After(d, leased, leak).executed, HidTransaction.Submitted(actions));
    BatchedTextRoundTrip(text, interKeyMs);
    BatchesJoin(HidTransaction.Submitted(actions));
  }
}
