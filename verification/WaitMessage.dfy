/** The progress line of a waiting sync, and the parser that reads it back. */
module WaitMessage {
  import opened GoStrings
  import opened Models

  /** normEmpty */
  function NormEmpty(v: string, fallback: string): string {
    if v == "" then fallback else v
  }

  /** The suffix naming the wait mode, from the number of resources the sync was restricted to. */
  function Mode(resources: nat): string {
    if resources > 0 then " mode=partial resources=" + Decimal(resources) else " mode=app"
  }

  /** The text of a progress message. */
  function Render(m: Message): string {
    match m
    case NoMessage => ""
    case Submitted => "submitted sync request"
    case Selection(selected, filtered) =>
      "resourc selection: selected=" + Decimal(selected) + " filtered=" + Decimal(filtered)
    case Skipping => "no selected resources eixsts" + " in this cluster; skipping"
    case AlreadyInProgress => "sync already in progress"
    case WaitReport(phase, sync, health, resources) =>
      "operation=" + NormEmpty(phase, "Unknown")
      + " sync=" + NormEmpty(sync, "Unknown")
      + " health=" + NormEmpty(health, "Unknown")
      + Mode(resources)
  }

  // ---- the parser (internal/tui/tui.go:1838-1865) ----

  datatype Parsed = Parsed(operation: Option<string>, sync: Option<string>, health: Option<string>)

  const NOTHING := Parsed(None, None, None)

  const OPERATION := "operation="
  const SYNC := "sync="
  const HEALTH := "health="

  /** Reads one field; a later one of the same kind wins. */
  function ReadField(p: Parsed, field: string): Parsed {
    if HasPrefix(field, OPERATION) then p.(operation := Some(TrimPrefix(field, OPERATION)))
    else if HasPrefix(field, SYNC) then p.(sync := Some(TrimPrefix(field, SYNC)))
    else if HasPrefix(field, HEALTH) then p.(health := Some(TrimPrefix(field, HEALTH)))
    else p
  }

  function ReadFields(p: Parsed, fields: seq<string>): Parsed
    decreases |fields|
  {
    if fields == [] then p else ReadFields(ReadField(p, fields[0]), fields[1..])
  }

  predicate Complete(p: Parsed) {
    p.operation.Some? && p.sync.Some? && p.health.Some?
  }

  /** What the parser makes of a message: the three values, if all were present. */
  function Parse(msg: string): Option<(string, string, string)> {
    var parts := Fields(TrimSpace(msg));
    var p := ReadFields(NOTHING, parts);
    if |parts| >= 3 && Complete(p) then Some((p.operation.value, p.sync.value, p.health.value)) else None
  }

  /** parseSyncWaitMessage */
  method ParseSyncWaitMessage(msg: string) returns (operation: string, sync: string, health: string, ok: bool)
    ensures ok <==> Parse(msg).Some?
    ensures ok ==> (operation, sync, health) == Parse(msg).value
  {
    operation, sync, health, ok := "", "", "", false;
    var trimmed := TrimSpace(msg);
    if trimmed == "" {
      return;
    }
    var parts := Fields(trimmed);
    if |parts| < 3 {
      return;
    }
    var opOK, syncOK, healthOK := false, false, false;
    for i := 0 to |parts|
      invariant ReadFields(Read(operation, sync, health, opOK, syncOK, healthOK), parts[i..]) == ReadFields(NOTHING, parts)
    {
      var p := parts[i];
      assert parts[i..][0] == p && parts[i..][1..] == parts[i + 1..];
      if HasPrefix(p, OPERATION) {
        operation, opOK := TrimPrefix(p, OPERATION), true;
      } else if HasPrefix(p, SYNC) {
        sync, syncOK := TrimPrefix(p, SYNC), true;
      } else if HasPrefix(p, HEALTH) {
        health, healthOK := TrimPrefix(p, HEALTH), true;
      }
    }
    ok := opOK && syncOK && healthOK;
  }

  function Read(operation: string, sync: string, health: string, opOK: bool, syncOK: bool, healthOK: bool): Parsed {
    Parsed(if opOK then Some(operation) else None, if syncOK then Some(sync) else None,
           if healthOK then Some(health) else None)
  }

  // ---- the round trip ----

  lemma WordsNoSpace()
    ensures NoSpace(OPERATION) && NoSpace(SYNC) && NoSpace(HEALTH)
    ensures NoSpace("mode=app") && NoSpace("mode=partial") && NoSpace("resources=") && NoSpace("Unknown")
  {
  }

  lemma NoSpaceConcat(a: string, b: string)
    requires NoSpace(a) && NoSpace(b)
    ensures NoSpace(a + b)
  {
  }

  /** The fields naming the mode. */
  function ModeFields(resources: nat): seq<string> {
    if resources > 0 then ["mode=partial", "resources=" + Decimal(resources)] else ["mode=app"]
  }

  lemma FieldsOfMode(resources: nat)
    ensures Fields(Mode(resources)[1..]) == ModeFields(resources)
  {
    hide Fields;
    if resources > 0 {
      PartialMode(Decimal(resources), resources);
    } else {
      WordsNoSpace();
      assert Mode(resources)[1..] == "mode=app";
      FieldsStep("mode=app", "");
    }
  }

  lemma PartialMode(n: string, resources: nat)
    requires n == Decimal(resources)
    ensures Fields((" mode=partial resources=" + n)[1..]) == ["mode=partial", "resources=" + n]
  {
    hide Fields, Decimal;
    WordsNoSpace();
    DecimalNoSpace(resources);
    NoSpaceConcat("resources=", n);
    assert (" mode=partial resources=" + n)[1..] == "mode=partial" + " " + ("resources=" + n);
    FieldsStep("mode=partial", "resources=" + n);
    FieldsStep("resources=" + n, "");
  }

  /** Three words and the rest of a line split into them. */
  lemma FieldsOfWords(a: string, b: string, c: string, m: string)
    requires NoSpace(a) && NoSpace(b) && NoSpace(c) && a != "" && b != "" && c != ""
    ensures Fields(a + " " + b + " " + c + " " + m) == [a, b, c] + Fields(m)
  {
    hide Fields, NoSpace;
    Reassociate(a, b, c, m);
    FieldsStep(a, b + " " + (c + " " + m));
    FieldsStep(b, c + " " + m);
    FieldsStep(c, m);
    assert [a] + ([b] + ([c] + Fields(m))) == [a, b, c] + Fields(m);
  }

  lemma Reassociate(a: string, b: string, c: string, m: string)
    ensures a + " " + b + " " + c + " " + m == a + " " + (b + " " + (c + " " + m))
  {
    assert b + " " + c + " " + m == b + " " + (c + " " + m);
    assert a + " " + b + " " + c + " " + m == (a + " ") + (b + " " + c + " " + m);
  }

  /** A message made of three words and a mode splits into them. */
  lemma FieldsOfReport(a: string, b: string, c: string, resources: nat)
    requires NoSpace(a) && NoSpace(b) && NoSpace(c) && a != "" && b != "" && c != ""
    ensures Fields(a + " " + b + " " + c + Mode(resources)) == [a, b, c] + ModeFields(resources)
  {
    hide Fields, ModeFields, Decimal, NoSpace;
    var m := Mode(resources)[1..];
    assert Mode(resources) == " " + m;
    FieldsOfMode(resources);
    FieldsOfWords(a, b, c, m);
    assert a + " " + b + " " + c + Mode(resources) == a + " " + b + " " + c + " " + m;
  }

  /** The end of a report tells the mode: the number of resources of a partial sync, or the application. */
  lemma ModeMeaning(phase: string, sync: string, health: string, resources: nat) returns (start: string, number: string)
    ensures Render(WaitReport(phase, sync, health, resources))
         == start + (if resources == 0 then " mode=app" else " mode=partial resources=" + number)
    ensures resources > 0 ==> Value(number) == resources
  {
    start := "operation=" + NormEmpty(phase, "Unknown") + " sync=" + NormEmpty(sync, "Unknown") + " health=" + NormEmpty(health, "Unknown");
    number := Decimal(resources);
    DecimalReads(resources);
  }

  /** A field with a different first character is not of a kind. */
  lemma OtherPrefix(f: string, p: string)
    requires f != "" && p != "" && f[0] != p[0]
    ensures !HasPrefix(f, p)
  {
  }

  lemma ReadKinds(v: string, p: Parsed)
    ensures ReadField(p, OPERATION + v) == p.(operation := Some(v))
    ensures ReadField(p, SYNC + v) == p.(sync := Some(v))
    ensures ReadField(p, HEALTH + v) == p.(health := Some(v))
  {
    OtherPrefix(SYNC + v, OPERATION);
    OtherPrefix(HEALTH + v, OPERATION);
    OtherPrefix(HEALTH + v, SYNC);
    assert (OPERATION + v)[|OPERATION|..] == v;
    assert (SYNC + v)[|SYNC|..] == v;
    assert (HEALTH + v)[|HEALTH|..] == v;
  }

  lemma ReadMode(p: Parsed, f: string)
    requires f != "" && f[0] != 'o' && f[0] != 's' && f[0] != 'h'
    ensures ReadField(p, f) == p
  {
    OtherPrefix(f, OPERATION);
    OtherPrefix(f, SYNC);
    OtherPrefix(f, HEALTH);
  }

  lemma ReadModes(p: Parsed, resources: nat)
    ensures ReadFields(p, ModeFields(resources)) == p
  {
    hide ReadField;
    if resources > 0 {
      var r := "resources=" + Decimal(resources);
      assert "mode=partial"[0] == 'm' && r[0] == 'r';
      ReadMode(p, "mode=partial");
      ReadMode(p, r);
      ReadOne(p, ["mode=partial", r]);
      assert ["mode=partial", r][1..] == [r] && [r][1..] == [];
    } else {
      assert "mode=app"[0] == 'm';
      ReadMode(p, "mode=app");
      assert ["mode=app"][1..] == [];
    }
  }

  lemma ReadReport(a: string, b: string, c: string, resources: nat)
    ensures ReadFields(NOTHING, [OPERATION + a, SYNC + b, HEALTH + c] + ModeFields(resources))
         == Parsed(Some(a), Some(b), Some(c))
  {
    hide ReadField, ModeFields;
    var fs := [OPERATION + a, SYNC + b, HEALTH + c] + ModeFields(resources);
    var p1 := Parsed(Some(a), None, None);
    var p2 := Parsed(Some(a), Some(b), None);
    ReadKinds(a, NOTHING);
    ReadKinds(b, p1);
    ReadKinds(c, p2);
    ReadModes(Parsed(Some(a), Some(b), Some(c)), resources);
    assert fs[1..] == [SYNC + b, HEALTH + c] + ModeFields(resources);
    assert fs[1..][1..] == [HEALTH + c] + ModeFields(resources);
    assert fs[1..][1..][1..] == ModeFields(resources);
    ReadOne(NOTHING, fs);
    ReadOne(p1, fs[1..]);
    ReadOne(p2, fs[1..][1..]);
  }

  lemma ReadOne(p: Parsed, fields: seq<string>)
    requires fields != []
    ensures ReadFields(p, fields) == ReadFields(ReadField(p, fields[0]), fields[1..])
  {
  }

  /** The parser gets back what the printer was given, for values without blanks. */
  lemma RoundTrip(phase: string, sync: string, health: string, resources: nat)
    requires NoSpace(phase) && NoSpace(sync) && NoSpace(health)
    ensures Parse(Render(WaitReport(phase, sync, health, resources)))
         == Some((if phase == "" then "Unknown" else phase, if sync == "" then "Unknown" else sync,
                  if health == "" then "Unknown" else health))
  {
    hide Fields, ReadFields, TrimSpace, Mode, ModeFields;
    var a, b, c := NormEmpty(phase, "Unknown"), NormEmpty(sync, "Unknown"), NormEmpty(health, "Unknown");
    WordsNoSpace();
    NoSpaceConcat(OPERATION, a);
    NoSpaceConcat(SYNC, b);
    NoSpaceConcat(HEALTH, c);
    var msg := Render(WaitReport(phase, sync, health, resources));
    Assembled(a, b, c, resources);
    assert msg == OPERATION + a + " " + (SYNC + b) + " " + (HEALTH + c) + Mode(resources);
    NothingToTrim(msg, resources);
    FieldsOfReport(OPERATION + a, SYNC + b, HEALTH + c, resources);
    ReadReport(a, b, c, resources);
  }

  lemma Assembled(a: string, b: string, c: string, resources: nat)
    ensures "operation=" + a + " sync=" + b + " health=" + c + Mode(resources)
         == OPERATION + a + " " + (SYNC + b) + " " + (HEALTH + c) + Mode(resources)
  {
    assert " sync=" == " " + SYNC && " health=" == " " + HEALTH;
  }

  lemma NothingToTrim(msg: string, resources: nat)
    requires |msg| > |Mode(resources)| && OPERATION <= msg && msg[|msg| - |Mode(resources)|..] == Mode(resources)
    ensures TrimSpace(msg) == msg
  {
    var m := Mode(resources);
    assert msg[0] == OPERATION[0] == 'o';
    if resources > 0 {
      DecimalNoSpace(resources);
      assert m[|m| - 1] == Decimal(resources)[|Decimal(resources)| - 1];
      assert m[|m| - 1] in Decimal(resources);
    }
    assert msg[|msg| - 1] == m[|m| - 1];
    TrimNothing(msg);
  }

  lemma {:induction false} FieldsHaveNoSpace(word: string, s: string, f: string)
    requires NoSpace(word) && f in FieldsAfter(word, s)
    ensures NoSpace(f)
    decreases s
  {
    if s != [] {
      if IsSpace(s[0]) {
        if f != word { FieldsHaveNoSpace("", s[1..], f); }
      } else {
        FieldsHaveNoSpace(word + [s[0]], s[1..], f);
      }
    }
  }

  ghost predicate ValuesHaveNoSpace(p: Parsed) {
    (p.operation.Some? ==> NoSpace(p.operation.value)) && (p.sync.Some? ==> NoSpace(p.sync.value))
    && (p.health.Some? ==> NoSpace(p.health.value))
  }

  lemma {:induction false} ReadsNoSpace(p: Parsed, fields: seq<string>)
    requires ValuesHaveNoSpace(p) && forall f :: f in fields ==> NoSpace(f)
    ensures ValuesHaveNoSpace(ReadFields(p, fields))
    decreases |fields|
  {
    if fields != [] {
      assert NoSpace(fields[0]);
      ReadsNoSpace(ReadField(p, fields[0]), fields[1..]);
    }
  }

  lemma ParsedValuesNoSpace(msg: string)
    requires Parse(msg).Some?
    ensures NoSpace(Parse(msg).value.0) && NoSpace(Parse(msg).value.1) && NoSpace(Parse(msg).value.2)
  {
    hide Fields, ReadFields, TrimSpace;
    var fields := Fields(TrimSpace(msg));
    forall f | f in fields ensures NoSpace(f) {
      FieldHasNoSpace(msg, f);
    }
    ReadsNoSpace(NOTHING, fields);
  }

  lemma FieldHasNoSpace(msg: string, f: string)
    requires f in Fields(TrimSpace(msg))
    ensures NoSpace(f)
  {
    FieldsHaveNoSpace("", TrimSpace(msg), f);
  }

  /** The parser gets back what the printer was given exactly if no value contains a blank. */
  lemma RoundTripExactly(phase: string, sync: string, health: string, resources: nat)
    ensures Parse(Render(WaitReport(phase, sync, health, resources)))
            == Some((if phase == "" then "Unknown" else phase, if sync == "" then "Unknown" else sync,
                  if health == "" then "Unknown" else health))
       <==> NoSpace(phase) && NoSpace(sync) && NoSpace(health)
  {
    hide Parse, Render;
    var msg := Render(WaitReport(phase, sync, health, resources));
    if NoSpace(phase) && NoSpace(sync) && NoSpace(health) {
      RoundTrip(phase, sync, health, resources);
    } else if Parse(msg).Some? {
      ParsedValuesNoSpace(msg);
    }
  }

  // ---- the other messages ----

  lemma {:induction false} FieldsChars(word: string, s: string, f: string, c: char)
    requires f in FieldsAfter(word, s) && c in f
    ensures c in word || c in s
    decreases s
  {
    if s != [] {
      if IsSpace(s[0]) {
        if f != word { FieldsChars("", s[1..], f, c); }
      } else {
        FieldsChars(word + [s[0]], s[1..], f, c);
      }
    }
  }

  lemma {:induction false} TrimChars(s: string, c: char)
    requires c in TrimRight(s)
    ensures c in s
    decreases |s|
  {
    if s != [] && IsSpace(s[|s| - 1]) { TrimChars(s[..|s| - 1], c); }
  }

  lemma {:induction false} TrimLeftChars(s: string, c: char)
    requires c in TrimLeft(s)
    ensures c in s
    decreases |s|
  {
    if s != [] && IsSpace(s[0]) { TrimLeftChars(s[1..], c); }
  }

  lemma {:induction false} NoOperationField(p: Parsed, fields: seq<string>)
    requires forall f :: f in fields ==> !HasPrefix(f, OPERATION)
    ensures ReadFields(p, fields).operation == p.operation
    decreases |fields|
  {
    if fields != [] { NoOperationField(ReadField(p, fields[0]), fields[1..]); }
  }

  /** A message without one of the characters of "operation=" is not read as a wait message. */
  lemma MissingCharacter(msg: string, c: char)
    requires c in OPERATION && c !in msg
    ensures Parse(msg).None?
  {
    hide Fields;
    var fields := Fields(TrimSpace(msg));
    forall f | f in fields ensures !HasPrefix(f, OPERATION) {
      if HasPrefix(f, OPERATION) {
        var k :| 0 <= k < |OPERATION| && OPERATION[k] == c;
        assert f[k] == c;
        FieldHasChar(msg, f, c);
      }
    }
    NoOperationField(NOTHING, fields);
  }

  lemma FieldHasChar(msg: string, f: string, c: char)
    requires f in Fields(TrimSpace(msg)) && c in f
    ensures c in msg
  {
    FieldsChars("", TrimSpace(msg), f, c);
    TrimChars(TrimLeft(msg), c);
    TrimLeftChars(msg, c);
  }

  lemma {:induction false} DecimalDigits(n: nat, c: char)
    requires c in Decimal(n)
    ensures '0' <= c <= '9'
  {
    if n >= 10 && c in Decimal(n / 10) { DecimalDigits(n / 10, c); }
  }

  lemma LettersMissing()
    ensures 'p' in OPERATION && '=' in OPERATION
    ensures '=' !in "submitted sync request" && '=' !in "sync already in progress"
  {
    assert OPERATION[1] == 'p' && OPERATION[9] == '=';
  }

  lemma SkippingMissing()
    ensures '=' !in "no selected resources eixsts" + " in this cluster; skipping"
  {
    var head, rest := "no selected resources eixsts", " in this cluster; skipping";
    assert '=' !in head;
    assert '=' !in rest;
    NotInConcat('=', head, rest);
  }

  lemma SelectionMissing(a: string, b: string)
    requires 'p' !in a && 'p' !in b
    ensures 'p' !in "resourc selection: selected=" + a + " filtered=" + b
  {
    var head, middle := "resourc selection: selected=", " filtered=";
    assert 'p' !in head;
    assert 'p' !in middle;
    NotInConcat('p', head, a);
    NotInConcat('p', head + a, middle);
    NotInConcat('p', head + a + middle, b);
  }

  lemma NotInConcat(c: char, a: string, b: string)
    requires c !in a && c !in b
    ensures c !in a + b
  {
  }

  /** No other message of a run is taken for a wait message. */
  lemma OthersNotParsed(m: Message)
    requires !m.WaitReport?
    ensures Parse(Render(m)).None?
  {
    hide Fields, ReadFields, TrimSpace, Decimal;
    LettersMissing();
    if m.Selection? {
      if 'p' in Decimal(m.selected) { DecimalDigits(m.selected, 'p'); }
      if 'p' in Decimal(m.filtered) { DecimalDigits(m.filtered, 'p'); }
      SelectionMissing(Decimal(m.selected), Decimal(m.filtered));
      MissingCharacter(Render(m), 'p');
    } else {
      SkippingMissing();
      MissingCharacter(Render(m), '=');
    }
  }

  /** On every message a run can emit, the parser succeeds exactly on the wait messages. */
  lemma ParsedIffReport(m: Message)
    requires m.WaitReport? ==> NoSpace(m.phase) && NoSpace(m.sync) && NoSpace(m.health)
    ensures Parse(Render(m)).Some? <==> m.WaitReport?
  {
    hide Parse, Render;
    if m.WaitReport? {
      RoundTrip(m.phase, m.sync, m.health, m.resources);
    } else {
      OthersNotParsed(m);
    }
  }
}
