/** The text of an XO transaction: how the client writes it and how the processor reads it. */
module XoPayload {
  import opened Common
  import opened Outcomes
  import Text

  /** `space` becomes an integer only for a take. */
  datatype Space = Number(n: int) | Raw(text: string)

  datatype Payload = Payload(name: string, action: string, space: Space)

  /** Python's `int(text)`: None where it raises ValueError. */
  type IntParser = string -> Option<int>

  const ACTIONS := ["create", "take", "delete"]

  function Parse(payload: string, toInt: IntParser): Result<Payload, Failure> {
    var fields := Text.Split(payload, ',');
    if |fields| != 3 then Err(Invalid(BadPayload))
    else
      var name, action, space := fields[0], fields[1], fields[2];
      if name == "" then Err(Invalid(NameRequired))
      else if '|' in name then Err(Invalid(NameHasBar))
      else if action == "" then Err(Invalid(ActionRequired))
      else if action !in ACTIONS then Err(Invalid(UnknownAction))
      else if action != "take" then Ok(Payload(name, action, Raw(space)))
      else
        match toInt(space)
        case Some(n) =>
          if 1 <= n < 10 then Ok(Payload(name, action, Number(n))) else Err(Invalid(BadSpace))
        case None => Err(Invalid(BadSpace))
  }

  ghost predicate ValidName(name: string) {
    name != "" && ',' !in name && '|' !in name
  }

  ghost predicate IsAction(action: string) {
    action == "create" || action == "take" || action == "delete"
  }

  ghost predicate ValidPayload(p: Payload) {
    && ValidName(p.name)
    && IsAction(p.action)
    && (p.space.Number? <==> p.action == "take")
    && (p.action == "take" ==> 1 <= p.space.n <= 9)
  }

  /** The part of it that the handler's code needs in order not to trip. */
  predicate Readable(p: Payload) {
    p.action == "take" ==> p.space.Number? && 1 <= p.space.n
  }

  /** `str(space)` for the spaces of the board. */
  function Digit(n: int): string
    requires 0 <= n <= 9
  {
    ["0123456789"[n]]
  }

  /** The payload XoClient sends; create and delete leave the space empty. */
  function Print(name: string, action: string, space: Option<int>): string
    requires space.Some? ==> 0 <= space.value <= 9
  {
    Text.Join([name, action, if space.Some? then Digit(space.value) else ""], ',')
  }

  ghost predicate ReadsDigits(toInt: IntParser) {
    forall n | 0 <= n <= 9 :: toInt(Digit(n)) == Some(n)
  }

  /** Everything the parser lets through satisfies what the handler relies on. */
  lemma ParsedIsValid(payload: string, toInt: IntParser)
    ensures var r := Parse(payload, toInt);
            match r
            case Ok(p) => ValidPayload(p)
            case Err(f) => f.Invalid?
  {
    Text.SplitFree(payload, ',');
    var fields := Text.Split(payload, ',');
    if |fields| == 3 {
      assert fields[0] in fields;
    }
  }

  /** This text and no other is what these three fields are written as. */
  ghost predicate Spells(payload: string, name: string, action: string, space: string) {
    && payload == name + "," + action + "," + space
    && ',' !in name && ',' !in action && ',' !in space
  }

  lemma JoinThree(name: string, action: string, space: string)
    ensures Text.Join([name, action, space], ',') == name + "," + action + "," + space
  {
    var tail := action + [','] + space;
    assert [name, action, space][1..] == [action, space];
    assert [action, space][1..] == [space];
    assert Text.Join([action, space], ',') == tail;
    assert Text.Join([name, action, space], ',') == name + [','] + tail;
    assert name + [','] + tail == name + "," + action + "," + space;
  }

  /** A payload splits into three fields exactly if it spells them. */
  lemma SplitThree(payload: string, name: string, action: string, space: string)
    ensures Text.Split(payload, ',') == [name, action, space] <==> Spells(payload, name, action, space)
  {
    var parts := [name, action, space];
    JoinThree(name, action, space);
    Text.JoinSplit(payload, ',');
    Text.SplitFree(payload, ',');
    if Text.Split(payload, ',') == parts {
      assert name in parts && action in parts && space in parts;
    }
    if Spells(payload, name, action, space) {
      Text.SplitJoin(parts, ',');
    }
  }

  /** What three fields say: refused for the first reason that applies, or parsed to this. */
  ghost predicate FieldsSay(name: string, action: string, space: string, toInt: IntParser,
                            r: Result<Payload, Failure>)
  {
    if name == "" then r == Err(Invalid(NameRequired))
    else if '|' in name then r == Err(Invalid(NameHasBar))
    else if action == "" then r == Err(Invalid(ActionRequired))
    else if action == "create" || action == "delete" then r == Ok(Payload(name, action, Raw(space)))
    else if action != "take" then r == Err(Invalid(UnknownAction))
    else if exists n :: 1 <= n <= 9 && toInt(space) == Some(n) then
      r == Ok(Payload(name, action, Number(toInt(space).value)))
    else r == Err(Invalid(BadSpace))
  }

  /** The parser on any text: what its three fields say, if it spells three, and else a bad payload. */
  lemma ParseExact(payload: string, toInt: IntParser)
    ensures forall name, action, space | Spells(payload, name, action, space) ::
              FieldsSay(name, action, space, toInt, Parse(payload, toInt))
    ensures (exists name, action, space :: Spells(payload, name, action, space))
         || Parse(payload, toInt) == Err(Invalid(BadPayload))
  {
    var fields := Text.Split(payload, ',');
    forall name, action, space | Spells(payload, name, action, space)
      ensures FieldsSay(name, action, space, toInt, Parse(payload, toInt))
    {
      SplitThree(payload, name, action, space);
    }
    if |fields| == 3 {
      assert fields == [fields[0], fields[1], fields[2]];
      SplitThree(payload, fields[0], fields[1], fields[2]);
    }
  }

  /** What the client sends: the name, the action and the digit of the space, if there is one, between commas. */
  lemma PrintText(name: string, action: string, n: int)
    requires 0 <= n <= 9
    ensures Print(name, action, Some(n)) == name + "," + action + "," + [('0' as int + n) as char]
    ensures Print(name, action, None) == name + "," + action + "," + ""
  {
    JoinThree(name, action, Digit(n));
    JoinThree(name, action, "");
  }

  /** What the three texts the client writes parse to. */
  lemma WrittenParses(name: string, space: string, toInt: IntParser)
    requires name != "" && ',' !in name && '|' !in name && ',' !in space
    ensures Parse(name + ",create,", toInt) == Ok(Payload(name, "create", Raw("")))
    ensures Parse(name + ",delete,", toInt) == Ok(Payload(name, "delete", Raw("")))
    ensures forall n | 1 <= n <= 9 && toInt(space) == Some(n) ::
              Parse(name + ",take," + space, toInt) == Ok(Payload(name, "take", Number(n)))
  {
    assert name + ",create," == name + "," + "create" + "," + "";
    SplitThree(name + ",create,", name, "create", "");
    assert name + ",delete," == name + "," + "delete" + "," + "";
    SplitThree(name + ",delete,", name, "delete", "");
    assert name + ",take," + space == name + "," + "take" + "," + space;
    SplitThree(name + ",take," + space, name, "take", space);
  }

  /** A payload is accepted exactly if it spells a valid name, one of the three actions and, for a take, a space. */
  lemma ParseAccepts(payload: string, toInt: IntParser)
    ensures Parse(payload, toInt).Ok? <==>
              exists name, action, space ::
                && Spells(payload, name, action, space)
                && name != "" && '|' !in name
                && (action == "create" || action == "delete"
                    || (action == "take" && exists n :: 1 <= n <= 9 && toInt(space) == Some(n)))
  {
    ParseExact(payload, toInt);
  }

  /** Printing then parsing gives back the same triple. */
  lemma PrintParse(name: string, action: string, space: Option<int>, toInt: IntParser)
    requires ReadsDigits(toInt)
    requires ValidName(name) && IsAction(action)
    requires action == "take" <==> space.Some?
    requires space.Some? ==> 1 <= space.value <= 9
    ensures Parse(Print(name, action, space), toInt)
         == Ok(Payload(name, action, if space.Some? then Number(space.value) else Raw("")))
  {
    var parts := [name, action, if space.Some? then Digit(space.value) else ""];
    assert Text.Free(',', parts);
    Text.SplitJoin(parts, ',');
  }

  /** Every payload that is accepted is the printing of what it was parsed to, up to the spelling of the space. */
  lemma ParsePrint(payload: string, toInt: IntParser) returns (space: string)
    requires Parse(payload, toInt).Ok?
    ensures var p := Parse(payload, toInt).value;
            && payload == p.name + "," + p.action + "," + space
            && (if p.action == "take" then toInt(space) == Some(p.space.n) else p.space == Raw(space))
  {
    var fields := Text.Split(payload, ',');
    space := fields[2];
    Text.JoinSplit(payload, ',');
    assert fields == [fields[0], fields[1], fields[2]];
    assert fields[1..] == [fields[1], fields[2]];
    assert fields[1..][1..] == [fields[2]];
    calc {
      payload;
      Text.Join(fields, ',');
      fields[0] + [','] + Text.Join([fields[1], fields[2]], ',');
      fields[0] + [','] + (fields[1] + [','] + Text.Join([fields[2]], ','));
    }
  }

  lemma {:induction false} CommaSplits(s: string)
    requires ',' in s
    ensures |Text.Split(s, ',')| > 1
  {
    if s[0] != ',' {
      CommaSplits(s[1..]);
    }
  }

  lemma {:induction false} SplitConcat(a: string, b: string)
    ensures |Text.Split(a + [','] + b, ',')| == |Text.Split(a, ',')| + |Text.Split(b, ',')|
  {
    var s := a + [','] + b;
    if a == "" {
      assert s[1..] == b;
    } else {
      assert s[1..] == a[1..] + [','] + b;
      SplitConcat(a[1..], b);
    }
  }

  /** A payload printed for a name with a separator in it, or for no name, is always rejected. */
  lemma BadNameRejected(name: string, action: string, space: Option<int>, toInt: IntParser)
    requires !ValidName(name)
    requires IsAction(action)
    requires space.Some? ==> 0 <= space.value <= 9
    ensures Parse(Print(name, action, space), toInt)
         == Err(Invalid(if ',' in name then BadPayload else if name == "" then NameRequired else NameHasBar))
  {
    var last := if space.Some? then Digit(space.value) else "";
    var parts := [name, action, last];
    assert parts[1..] == [action, last];
    assert [action, last][1..] == [last];
    assert Print(name, action, space) == name + [','] + Text.Join([action, last], ',');
    if ',' in name {
      CommaSplits(name);
      SplitConcat(name, Text.Join([action, last], ','));
      SplitConcat(action, last);
      assert Text.Join([action, last], ',') == action + [','] + last;
    } else {
      assert Text.Free(',', parts);
      Text.SplitJoin(parts, ',');
    }
  }
}
