/** Renaming struct fields to wire keys, and getting the field back. */
module RenameRules {
  predicate IsUpper(c: char) { 'A' <= c <= 'Z' }

  predicate IsLower(c: char) { 'a' <= c <= 'z' }

  function UpperChar(c: char): char { if IsLower(c) then (c as int - 32) as char else c }

  function LowerChar(c: char): char { if IsUpper(c) then (c as int + 32) as char else c }

  function MapChars(s: string, f: char -> char): (r: string)
    ensures |r| == |s| && forall i :: 0 <= i < |s| ==> r[i] == f(s[i])
  {
    seq(|s|, i requires 0 <= i < |s| => f(s[i]))
  }

  function Hyphen(c: char): char { if c == '_' then '-' else c }

  function Underscore(c: char): char { if c == '-' then '_' else c }

  /** What the loop still has to write, given whether the next letter starts a segment. */
  function PascalFrom(field: string, capitalize: bool): string {
    if field == "" then ""
    else if field[0] == '_' then PascalFrom(field[1..], true)
    else [if capitalize then UpperChar(field[0]) else field[0]] + PascalFrom(field[1..], false)
  }

  method PascalCase(field: string) returns (out: string)
    ensures out == Joined(Split(field))
  {
    out := "";
    var capitalize := true;
    for i := 0 to |field|
      invariant out + PascalFrom(field[i..], capitalize) == PascalFrom(field, true)
    {
      ghost var rest := field[i..];
      assert rest[0] == field[i] && rest[1..] == field[i + 1..];
      if field[i] == '_' {
        capitalize := true;
      } else if capitalize {
        assert out + ([UpperChar(field[i])] + PascalFrom(rest[1..], false)) == out + [UpperChar(field[i])] + PascalFrom(rest[1..], false);
        out := out + [UpperChar(field[i])];
        capitalize := false;
      } else {
        assert out + ([field[i]] + PascalFrom(rest[1..], false)) == out + [field[i]] + PascalFrom(rest[1..], false);
        out := out + [field[i]];
      }
    }
    assert out + PascalFrom("", capitalize) == out;
    PascalIsJoin(field, true);
  }

  // ---- the loop joins capitalised segments ----

  /** The pieces between underscores; there is always at least one. */
  function Split(field: string): (segments: seq<string>)
    ensures |segments| >= 1
  {
    if field == "" then [""]
    else
      var rest := Split(field[1..]);
      if field[0] == '_' then [""] + rest else [[field[0]] + rest[0]] + rest[1..]
  }

  function Capitalised(segment: string): string {
    if segment == "" then "" else [UpperChar(segment[0])] + segment[1..]
  }

  function Joined(segments: seq<string>): string {
    if segments == [] then "" else Capitalised(segments[0]) + Joined(segments[1..])
  }

  lemma SplitLetter(c: char, tail: string)
    requires c != '_'
    ensures Split([c] + tail) == [[c] + Split(tail)[0]] + Split(tail)[1..]
  {
    assert ([c] + tail)[1..] == tail;
  }

  lemma SplitUnderscore(tail: string)
    ensures Split(['_'] + tail) == [""] + Split(tail)
  {
    assert (['_'] + tail)[1..] == tail;
  }

  /** The rest of a name whose first piece is already under way unless it is to be capitalised. */
  function Resumed(segments: seq<string>, capitalize: bool): string
    requires segments != []
  {
    (if capitalize then Capitalised(segments[0]) else segments[0]) + Joined(segments[1..])
  }

  lemma LetterInFront(c: char, segment: string, rest: string, capitalize: bool)
    ensures (if capitalize then Capitalised([c] + segment) else [c] + segment) + rest
         == [if capitalize then UpperChar(c) else c] + (segment + rest)
  {
    assert ([c] + segment)[1..] == segment;
  }

  lemma ResumedLetter(c: char, segments: seq<string>, capitalize: bool)
    requires segments != []
    ensures Resumed([[c] + segments[0]] + segments[1..], capitalize)
         == [if capitalize then UpperChar(c) else c] + Resumed(segments, false)
  {
    var all := [[c] + segments[0]] + segments[1..];
    assert all[0] == [c] + segments[0] && all[1..] == segments[1..];
    LetterInFront(c, segments[0], Joined(segments[1..]), capitalize);
  }

  lemma ResumedUnderscore(segments: seq<string>, capitalize: bool)
    requires segments != []
    ensures Resumed([""] + segments, capitalize) == Resumed(segments, true)
  {
    assert ([""] + segments)[1..] == segments;
  }

  lemma {:induction false} PascalIsJoin(field: string, capitalize: bool)
    ensures PascalFrom(field, capitalize) == Resumed(Split(field), capitalize)
  {
    if field != "" {
      var tail := field[1..];
      assert field == [field[0]] + tail;
      if field[0] == '_' {
        PascalIsJoin(tail, true);
        SplitUnderscore(tail);
        ResumedUnderscore(Split(tail), capitalize);
      } else {
        PascalIsJoin(tail, false);
        SplitLetter(field[0], tail);
        ResumedLetter(field[0], Split(tail), capitalize);
      }
    }
  }

  // ---- the rules and their inverses ----

  function Pascal(field: string): string { Joined(Split(field)) }

  function MapFirst(s: string, f: char -> char): string {
    if s == "" then "" else [f(s[0])] + s[1..]
  }

  function ApplyRenameRule(rule: string, field: string): string {
    if rule == "lowercase" || rule == "snake_case" then field
    else if rule == "UPPERCASE" || rule == "SCREAMING_SNAKE_CASE" then MapChars(field, UpperChar)
    else if rule == "PascalCase" then Pascal(field)
    else if rule == "camelCase" then MapFirst(Pascal(field), LowerChar)
    else if rule == "kebab-case" then MapChars(field, Hyphen)
    else if rule == "SCREAMING-KEBAB-CASE" then MapChars(MapChars(field, UpperChar), Hyphen)
    else field
  }

  /** Every upper-case letter starts a new segment. */
  function SnakeTail(key: string): string {
    if key == "" then ""
    else (if IsUpper(key[0]) then ['_', LowerChar(key[0])] else [key[0]]) + SnakeTail(key[1..])
  }

  function Snake(key: string): string {
    if key == "" then "" else [LowerChar(key[0])] + SnakeTail(key[1..])
  }

  /** The inverse of a rule on well-formed names. */
  function UndoRule(rule: string, key: string): string {
    if rule == "UPPERCASE" || rule == "SCREAMING_SNAKE_CASE" then MapChars(key, LowerChar)
    else if rule == "PascalCase" || rule == "camelCase" then Snake(key)
    else if rule == "kebab-case" then MapChars(key, Underscore)
    else if rule == "SCREAMING-KEBAB-CASE" then MapChars(MapChars(key, LowerChar), Underscore)
    else key
  }

  predicate GoodSegment(s: string) {
    s != "" && IsLower(s[0]) && forall i :: 0 <= i < |s| ==> !IsUpper(s[i]) && s[i] != '-'
  }

  /** Non-empty segments that start with a lower-case letter and hold no upper-case letter and no hyphen. */
  predicate WellNamed(field: string) {
    forall i :: 0 <= i < |Split(field)| ==> GoodSegment(Split(field)[i])
  }

  /** What may follow a letter of a well-formed name. */
  predicate GoodTail(s: string) {
    if s == "" then true
    else if s[0] == '_' then |s| >= 2 && IsLower(s[1]) && GoodTail(s[2..])
    else !IsUpper(s[0]) && s[0] != '-' && GoodTail(s[1..])
  }

  predicate Plain(s: string) {
    forall i :: 0 <= i < |s| ==> !IsUpper(s[i]) && s[i] != '-'
  }

  /** A first piece already under way, and good ones after it. */
  predicate GoodRest(segments: seq<string>)
    requires segments != []
  {
    Plain(segments[0]) && forall i :: 1 <= i < |segments| ==> GoodSegment(segments[i])
  }

  lemma GoodRestLetter(c: char, segments: seq<string>)
    requires segments != [] && GoodRest([[c] + segments[0]] + segments[1..])
    ensures !IsUpper(c) && c != '-' && GoodRest(segments)
  {
    var all := [[c] + segments[0]] + segments[1..];
    assert all[0][0] == c;
    assert forall i :: 0 <= i < |segments[0]| ==> all[0][i + 1] == segments[0][i];
    assert forall i :: 1 <= i < |segments| ==> all[i] == segments[i];
  }

  lemma GoodRestUnderscore(segments: seq<string>)
    requires segments != [] && GoodRest([""] + segments)
    ensures GoodSegment(segments[0]) && GoodRest(segments)
  {
    assert forall i :: 0 <= i < |segments| ==> ([""] + segments)[i + 1] == segments[i];
  }

  lemma {:induction false} TailsAreGood(s: string)
    requires GoodRest(Split(s))
    ensures GoodTail(s)
    decreases |s|
  {
    if s != "" {
      var tail := s[1..];
      assert s == [s[0]] + tail;
      if s[0] == '_' {
        SplitUnderscore(tail);
        GoodRestUnderscore(Split(tail));
        var inner := tail[1..];
        assert tail == [tail[0]] + inner && inner == s[2..];
        SplitLetter(tail[0], inner);
        GoodRestLetter(tail[0], Split(inner));
        assert Split(tail)[0][0] == tail[0];
        TailsAreGood(inner);
      } else {
        SplitLetter(s[0], tail);
        GoodRestLetter(s[0], Split(tail));
        TailsAreGood(tail);
      }
    }
  }

  lemma WellNamedShape(field: string)
    requires WellNamed(field)
    ensures field != "" && IsLower(field[0]) && GoodTail(field[1..])
  {
    assert GoodSegment(Split(field)[0]);
    var tail := field[1..];
    assert field == [field[0]] + tail;
    SplitLetter(field[0], tail);
    assert Split(field)[0][0] == field[0];
    GoodRestLetter(field[0], Split(tail));
    TailsAreGood(tail);
  }

  lemma SnakeTailCons(c: char, key: string)
    ensures SnakeTail([c] + key) == (if IsUpper(c) then ['_', LowerChar(c)] else [c]) + SnakeTail(key)
  {
    assert ([c] + key)[1..] == key;
  }

  lemma PascalUnderscore(c: char, rest: string)
    requires c != '_'
    ensures PascalFrom(['_', c] + rest, false) == [UpperChar(c)] + PascalFrom(rest, false)
  {
    assert (['_', c] + rest)[1..] == [c] + rest && ([c] + rest)[1..] == rest;
  }

  lemma PascalPlain(c: char, rest: string)
    requires c != '_'
    ensures PascalFrom([c] + rest, false) == [c] + PascalFrom(rest, false)
  {
    assert ([c] + rest)[1..] == rest;
  }

  lemma {:induction false} SnakeTailUndoes(s: string)
    requires GoodTail(s)
    ensures SnakeTail(PascalFrom(s, false)) == s
    decreases |s|
  {
    if s != "" {
      if s[0] == '_' {
        var c, rest := s[1], s[2..];
        assert s == ['_', c] + rest;
        PascalUnderscore(c, rest);
        SnakeTailCons(UpperChar(c), PascalFrom(rest, false));
        SnakeTailUndoes(rest);
      } else {
        var c, rest := s[0], s[1..];
        assert s == [c] + rest;
        PascalPlain(c, rest);
        SnakeTailCons(c, PascalFrom(rest, false));
        SnakeTailUndoes(rest);
      }
    }
  }

  lemma {:induction false} TailChars(s: string)
    requires GoodTail(s)
    ensures forall i :: 0 <= i < |s| ==> !IsUpper(s[i]) && s[i] != '-'
    decreases |s|
  {
    if s != "" {
      if s[0] == '_' {
        TailChars(s[2..]);
        assert forall i :: 2 <= i < |s| ==> s[i] == s[2..][i - 2];
      } else {
        TailChars(s[1..]);
        assert forall i :: 1 <= i < |s| ==> s[i] == s[1..][i - 1];
      }
    }
  }

  lemma PascalHead(field: string)
    requires field != "" && field[0] != '_'
    ensures Pascal(field) == [UpperChar(field[0])] + PascalFrom(field[1..], false)
  {
    PascalIsJoin(field, true);
    assert Joined(Split(field)) == Resumed(Split(field), true);
  }

  lemma SnakeUndoes(field: string, key: string)
    requires field != "" && IsLower(field[0]) && GoodTail(field[1..])
    requires key == [UpperChar(field[0])] + PascalFrom(field[1..], false)
    ensures Snake(key) == field && Snake(MapFirst(key, LowerChar)) == field
  {
    SnakeTailUndoes(field[1..]);
    assert key[1..] == PascalFrom(field[1..], false);
    assert MapFirst(key, LowerChar)[1..] == key[1..];
    assert field == [field[0]] + field[1..];
  }

  lemma PascalAndCamelUndo(field: string)
    requires WellNamed(field)
    ensures Snake(Pascal(field)) == field && Snake(MapFirst(Pascal(field), LowerChar)) == field
  {
    WellNamedShape(field);
    PascalHead(field);
    SnakeUndoes(field, Pascal(field));
  }

  /** A well-formed name holds no upper-case letter and no hyphen. */
  lemma NamesArePlain(field: string)
    requires WellNamed(field)
    ensures Plain(field)
  {
    WellNamedShape(field);
    TailChars(field[1..]);
    assert forall i :: 1 <= i < |field| ==> field[i] == field[1..][i - 1];
  }

  lemma UpperUndoes(field: string)
    requires Plain(field)
    ensures MapChars(MapChars(field, UpperChar), LowerChar) == field
  {}

  lemma KebabUndoes(field: string)
    requires Plain(field)
    ensures MapChars(MapChars(field, Hyphen), Underscore) == field
  {}

  lemma ScreamingKebabUndoes(field: string)
    requires Plain(field)
    ensures MapChars(MapChars(MapChars(MapChars(field, UpperChar), Hyphen), LowerChar), Underscore) == field
  {
    var loud := MapChars(MapChars(field, UpperChar), Hyphen);
    assert MapChars(loud, LowerChar) == MapChars(field, Hyphen);
    KebabUndoes(field);
  }

  /** Every rule can be undone on well-formed names. */
  lemma RulesAreRecoverable(rule: string, field: string)
    requires WellNamed(field)
    ensures UndoRule(rule, ApplyRenameRule(rule, field)) == field
  {
    NamesArePlain(field);
    if rule == "UPPERCASE" || rule == "SCREAMING_SNAKE_CASE" {
      UpperUndoes(field);
    } else if rule == "PascalCase" || rule == "camelCase" {
      PascalAndCamelUndo(field);
    } else if rule == "kebab-case" {
      KebabUndoes(field);
    } else if rule == "SCREAMING-KEBAB-CASE" {
      ScreamingKebabUndoes(field);
    }
  }

  lemma {:induction false} PascalDropsUnderscores(field: string, capitalize: bool)
    ensures forall i :: 0 <= i < |PascalFrom(field, capitalize)| ==> PascalFrom(field, capitalize)[i] != '_'
  {
    if field != "" { PascalDropsUnderscores(field[1..], field[0] == '_'); }
  }

  /** Which characters a rule's key has, and where; an unknown rule keeps the name. */
  lemma RuleCharacters(rule: string, field: string)
    ensures var key := ApplyRenameRule(rule, field);
      match rule
      case "UPPERCASE" => AllCapitals(field, key, '_')
      case "SCREAMING_SNAKE_CASE" => AllCapitals(field, key, '_')
      case "SCREAMING-KEBAB-CASE" => AllCapitals(field, key, '-')
      case "kebab-case" =>
        |key| == |field| && forall i :: 0 <= i < |key| ==> key[i] == if field[i] == '_' then '-' else field[i]
      case "PascalCase" => NoUnderscore(key) && (WellNamed(field) ==> key != "" && 'A' <= key[0] <= 'Z')
      case "camelCase" =>
        NoUnderscore(key) && (WellNamed(field) ==> key != "" && 'a' <= key[0] <= 'z')
        && |key| == |ApplyRenameRule("PascalCase", field)| && (key != "" ==> key[1..] == ApplyRenameRule("PascalCase", field)[1..])
      case _ => key == field
  {
    match rule
    case "PascalCase" => PascalCharacters(field);
    case "camelCase" => PascalCharacters(field);
    case _ =>
  }

  lemma PascalCharacters(field: string)
    ensures forall i :: 0 <= i < |Pascal(field)| ==> Pascal(field)[i] != '_'
    ensures WellNamed(field) ==> Pascal(field) != "" && IsUpper(Pascal(field)[0])
  {
    PascalIsJoin(field, true);
    assert Resumed(Split(field), true) == Pascal(field);
    PascalDropsUnderscores(field, true);
    if WellNamed(field) {
      WellNamedShape(field);
      PascalHead(field);
    }
  }

  predicate NoUnderscore(key: string) {
    forall i :: 0 <= i < |key| ==> key[i] != '_'
  }

  /** The name in capitals, with this character for each underscore. */
  predicate AllCapitals(field: string, key: string, separator: char) {
    |key| == |field| && forall i :: 0 <= i < |key| ==>
      if field[i] == '_' then key[i] == separator
      else if 'a' <= field[i] <= 'z' then key[i] as int == field[i] as int - 32 else key[i] == field[i]
  }

  /** Distinct well-formed fields never share a wire key. */
  lemma DistinctFieldsDistinctKeys(rule: string, a: string, b: string)
    requires WellNamed(a) && WellNamed(b) && a != b
    ensures ApplyRenameRule(rule, a) != ApplyRenameRule(rule, b)
  {
    RulesAreRecoverable(rule, a);
    RulesAreRecoverable(rule, b);
  }

  // ---- names outside that shape collide ----

  /** A letter, and a letter after an underscore or straight after the first. */
  lemma SplitPairs(a: char, b: char)
    requires a != '_' && b != '_'
    ensures Split([a, '_', b]) == [[a], [b]] && Split([a, b]) == [[a, b]] && Split([a, '_', '_', b]) == [[a], "", [b]]
  {
    assert Split("") == [""];
    SplitLetter(b, "");
    assert [b] + "" == [b] && Split([b]) == [[b]];
    SplitLetter(a, [b]);
    assert [a] + [b] == [a, b];
    SplitUnderscore([b]);
    assert ['_'] + [b] == ['_', b];
    SplitLetter(a, ['_', b]);
    assert [a] + ['_', b] == [a, '_', b] && [a] + "" == [a];
    assert Split(['_', b]) == ["", [b]] && ["", [b]][1..] == [[b]];
    SplitUnderscore(['_', b]);
    assert ['_'] + ['_', b] == ['_', '_', b];
    SplitLetter(a, ['_', '_', b]);
    assert [a] + ['_', '_', b] == [a, '_', '_', b];
    assert Split(['_', '_', b]) == ["", "", [b]] && ["", "", [b]][1..] == ["", [b]];
  }

  lemma JoinedPairs(a: char, b: char)
    ensures Joined([[a], [b]]) == [UpperChar(a), UpperChar(b)] && Joined([[a, b]]) == [UpperChar(a), b]
    ensures Joined([[a], "", [b]]) == [UpperChar(a), UpperChar(b)]
  {
    assert [[b]][1..] == [] && [[a], [b]][1..] == [[b]] && [[a, b]][1..] == [];
    assert ["", [b]][1..] == [[b]] && [[a], "", [b]][1..] == ["", [b]];
    assert Joined([]) == "" && Joined([[b]]) == [UpperChar(b)];
    assert Joined(["", [b]]) == [UpperChar(b)];
  }

  /** A digit after an underscore, an upper-case tail letter, or an empty segment each makes two fields share a key. */
  lemma PascalCollisions()
    ensures Pascal(['a', '_', '1']) == Pascal(['a', '1']) == "A1"
    ensures Pascal(['a', '_', 'b']) == Pascal(['a', 'B']) == "AB"
    ensures Pascal(['a', '_', '_', 'b']) == Pascal(['a', '_', 'b'])
  {
    SplitPairs('a', '1');
    JoinedPairs('a', '1');
    SplitPairs('a', 'b');
    JoinedPairs('a', 'b');
    SplitPairs('a', 'B');
    JoinedPairs('a', 'B');
  }
}
