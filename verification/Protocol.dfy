/** Control messages and their payload: NUL-terminated tokens, the command first. */
module Protocol {
  import opened KeyValueText
  import opened Outcomes
  import opened Strings
  import opened Tokens

  datatype Field = Field(key: string, value: string)

  datatype Message = Message(command: string, fields: seq<Field>) {
    /** The first value of a key, or empty. */
    function Get(key: string): string {
      FirstValue(fields, key)
    }

    /** Every value of a key, in order. */
    function GetAll(key: string): seq<string> {
      ValuesOf(fields, key)
    }
  }

  function FirstValue(fields: seq<Field>, key: string): string {
    if fields == [] then ""
    else if fields[0].key == key then fields[0].value
    else FirstValue(fields[1..], key)
  }

  function ValuesOf(fields: seq<Field>, key: string): seq<string> {
    if fields == [] then []
    else (if fields[0].key == key then [fields[0].value] else []) + ValuesOf(fields[1..], key)
  }

  /** Every field is on the allowlist. */
  predicate OnlyFields(m: Message, allowed: set<string>) {
    forall i :: 0 <= i < |m.fields| ==> m.fields[i].key in allowed
  }

  // ---- Encoding -------------------------------------------------------------------

  predicate FieldEncodes(f: Field) {
    f.key != "" && '\0' !in f.key && '\0' !in f.value
  }

  /** What the encoder accepts: it does not look inside the command. */
  predicate Encodes(m: Message) {
    m.command != "" && forall i :: 0 <= i < |m.fields| ==> FieldEncodes(m.fields[i])
  }

  function FieldTokens(fields: seq<Field>): (ts: seq<string>)
    ensures |ts| == |fields|
    ensures forall i :: 0 <= i < |fields| ==> ts[i] == Entry(fields[i].key, fields[i].value)
  {
    if fields == [] then [] else [Entry(fields[0].key, fields[0].value)] + FieldTokens(fields[1..])
  }

  function Payload(m: Message): string {
    Terminated([m.command] + FieldTokens(m.fields), '\0')
  }

  method EncodeMessage(m: Message) returns (r: Result<string>)
    ensures r.Ok? <==> Encodes(m)
    ensures r.Ok? ==> r.value == Payload(m)
  {
    if m.command == "" {
      return Err("message command may not be empty");
    }
    var output := m.command + "\0";
    for i := 0 to |m.fields|
      invariant forall j :: 0 <= j < i ==> FieldEncodes(m.fields[j])
      invariant output == Written(m, i)
    {
      var f := m.fields[i];
      if !FieldEncodes(f) {
        return Err("invalid NUL in control message");
      }
      output := output + (f.key + "=" + f.value + "\0");
    }
    WrittenIsPayload(m, |m.fields|);
    assert m.fields[..|m.fields|] == m.fields;
    r := Ok(output);
  }

  /** The output once the command and the first `i` fields are written. */
  function Written(m: Message, i: nat): string
    requires i <= |m.fields|
  {
    if i == 0 then m.command + "\0"
    else Written(m, i - 1) + (m.fields[i - 1].key + "=" + m.fields[i - 1].value + "\0")
  }

  lemma {:induction false} WrittenIsPayload(m: Message, i: nat)
    requires i <= |m.fields|
    ensures Written(m, i) == Terminated([m.command] + FieldTokens(m.fields[..i]), '\0')
  {
    if i == 0 {
      LastToken(m.command);
      assert [m.command] + FieldTokens(m.fields[..0]) == [m.command];
    } else {
      WrittenIsPayload(m, i - 1);
      PayloadStep(m, i - 1);
    }
  }

  lemma PayloadStep(m: Message, i: nat)
    requires i < |m.fields|
    ensures Terminated([m.command] + FieldTokens(m.fields[..i + 1]), '\0')
         == Terminated([m.command] + FieldTokens(m.fields[..i]), '\0')
            + (m.fields[i].key + "=" + m.fields[i].value + "\0")
  {
    var before, f := [m.command] + FieldTokens(m.fields[..i]), m.fields[i];
    assert [m.command] + FieldTokens(m.fields[..i + 1]) == before + [Entry(f.key, f.value)];
    TerminatedAppend(before, [Entry(f.key, f.value)], '\0');
    LastToken(Entry(f.key, f.value));
  }

  lemma LastToken(t: string)
    ensures Terminated([t], '\0') == t + "\0"
  {
    assert Terminated([t], '\0') == t + ['\0'] + Terminated([], '\0');
  }

  // ---- Decoding --------------------------------------------------------------------

  /** The fields of the tokens after the command; a token without `=` is malformed. */
  function FieldsOf(tokens: seq<string>, fields: seq<Field>): Result<seq<Field>> {
    if tokens == [] then Ok(fields)
    else
      var d := Find(tokens[0], '=');
      if d == |tokens[0]| then Err("malformed control token")
      else FieldsOf(tokens[1..], fields + [Field(tokens[0][..d], tokens[0][d + 1..])])
  }

  function FromTokens(tokens: seq<string>): Result<Message> {
    if tokens == [] then Err("missing control command")
    else
      var fields :- FieldsOf(tokens[1..], []);
      Ok(Message(tokens[0], fields))
  }

  function Decode(payload: string): Result<Message> {
    FromTokens(Split(payload, '\0'))
  }

  /** What decoding has still to do: the message so far, and whether the command was seen. */
  function Remaining(payload: string, cursor: nat, first: bool, m: Message): Result<Message>
    requires cursor <= |payload|
  {
    var tokens := Split(payload[cursor..], '\0');
    if first then FromTokens(tokens)
    else
      var fields :- FieldsOf(tokens, m.fields);
      Ok(Message(m.command, fields))
  }

  /** The message once one more token is read. */
  function AddToken(token: string, first: bool, m: Message): Result<Message> {
    if first then Ok(Message(token, []))
    else
      var d := Find(token, '=');
      if d == |token| then Err("malformed control token")
      else Ok(Message(m.command, m.fields + [Field(token[..d], token[d + 1..])]))
  }

  lemma RemainingStep(payload: string, cursor: nat, first: bool, m: Message)
    requires cursor < |payload|
    ensures var end := Find(payload, '\0', cursor);
            var token := payload[cursor..end];
            Remaining(payload, cursor, first, m) ==
            if token == "" then Remaining(payload, Next(payload, end), first, m)
            else match AddToken(token, first, m)
              case Err(e) => Err(e)
              case Ok(more) => Remaining(payload, Next(payload, end), false, more)
  {
    SplitStep(payload, '\0', cursor);
    var end := Find(payload, '\0', cursor);
    var token, rest := payload[cursor..end], Split(payload[Next(payload, end)..], '\0');
    if token == "" {
      assert Split(payload[cursor..], '\0') == rest;
    } else {
      assert Split(payload[cursor..], '\0') == [token] + rest;
      assert ([token] + rest)[1..] == rest;
    }
  }

  method DecodeMessage(payload: string) returns (r: Result<Message>)
    ensures r == Decode(payload)
  {
    var message := Message("", []);
    var cursor := 0;
    var first := true;
    assert payload[0..] == payload;
    while cursor < |payload|
      invariant cursor <= |payload|
      invariant Remaining(payload, cursor, first, message) == Decode(payload)
      invariant if first then message == Message("", []) else message.command != ""
    {
      RemainingStep(payload, cursor, first, message);
      var end := Find(payload, '\0', cursor);
      var token := payload[cursor..end];
      cursor := Next(payload, end);
      if token == "" {
        continue;
      }
      if first {
        message := message.(command := token);
        first := false;
        continue;
      }
      var delimiter := Find(token, '=');
      if delimiter == |token| {
        return Err("malformed control token");
      }
      message := message.(fields := message.fields + [Field(token[..delimiter], token[delimiter + 1..])]);
    }
    if message.command == "" {
      return Err("missing control command");
    }
    r := Ok(message);
  }

  // ---- Both ways -----------------------------------------------------------------------

  /** A field token splits back into its field exactly when the key has no `=`. */
  lemma {:induction false} FieldsOfTokens(fields: seq<Field>, acc: seq<Field>)
    requires forall i :: 0 <= i < |fields| ==> '=' !in fields[i].key
    ensures FieldsOf(FieldTokens(fields), acc) == Ok(acc + fields)
  {
    if fields == [] {
      assert acc + fields == acc;
    } else {
      EntrySplits(fields[0].key, fields[0].value);
      FieldsOfTokens(fields[1..], acc + [fields[0]]);
      assert acc + [fields[0]] + fields[1..] == acc + fields;
    }
  }

  lemma TokensOfMessage(m: Message)
    requires Encodes(m) && '\0' !in m.command
    ensures AllTokens([m.command] + FieldTokens(m.fields), '\0')
  {
    var ts := [m.command] + FieldTokens(m.fields);
    forall i | 0 <= i < |ts| ensures IsToken(ts[i], '\0') {
      if i > 0 {
        assert FieldEncodes(m.fields[i - 1]);
      }
    }
  }

  /** The fields a decoder produces: their tokens are what was read, and no key holds `=`. */
  lemma {:induction false} FieldsRead(tokens: seq<string>, acc: seq<Field>)
    requires FieldsOf(tokens, acc).Ok?
    ensures var fields := FieldsOf(tokens, acc).value;
            && |fields| == |acc| + |tokens| && fields[..|acc|] == acc
            && FieldTokens(fields[|acc|..]) == tokens
            && forall i :: |acc| <= i < |fields| ==> '=' !in fields[i].key
  {
    var fields := FieldsOf(tokens, acc).value;
    if tokens != [] {
      var d := Find(tokens[0], '=');
      var f := Field(tokens[0][..d], tokens[0][d + 1..]);
      assert tokens[0][0..d] == f.key;
      assert Entry(f.key, f.value) == tokens[0];
      FieldsRead(tokens[1..], acc + [f]);
      assert fields[..|acc| + 1] == acc + [f];
      assert fields[|acc|] == f;
      assert fields[|acc|..] == [f] + fields[|acc| + 1..];
    }
  }

  /** A decoded message: its tokens are the payload's, its keys hold no `=`, and no part holds a NUL. */
  lemma DecodedShape(payload: string)
    requires Decode(payload).Ok?
    ensures var m := Decode(payload).value;
            && [m.command] + FieldTokens(m.fields) == Split(payload, '\0')
            && m.command != "" && '\0' !in m.command
            && (forall i :: 0 <= i < |m.fields| ==> '=' !in m.fields[i].key)
            && (forall i :: 0 <= i < |m.fields| ==> '\0' !in m.fields[i].key && '\0' !in m.fields[i].value)
  {
    var tokens := Split(payload, '\0');
    FieldsRead(tokens[1..], []);
    var m := Decode(payload).value;
    assert m.fields[0..] == m.fields;
    assert IsToken(tokens[0], '\0');
    assert [tokens[0]] + tokens[1..] == tokens;
    forall i | 0 <= i < |m.fields| ensures '\0' !in m.fields[i].key && '\0' !in m.fields[i].value {
      FieldWithinToken(m.fields[i], tokens[i + 1]);
    }
  }

  /** Decoding an encoded message returns it exactly when its command holds no NUL and its keys no `=`. */
  lemma RoundTripExactly(m: Message)
    requires Encodes(m)
    ensures Decode(Payload(m)) == Ok(m) <==>
            '\0' !in m.command && forall i :: 0 <= i < |m.fields| ==> '=' !in m.fields[i].key
  {
    if Decode(Payload(m)) == Ok(m) {
      DecodedShape(Payload(m));
    }
    if '\0' !in m.command && forall i :: 0 <= i < |m.fields| ==> '=' !in m.fields[i].key {
      TokensOfMessage(m);
      SplitTerminated([m.command] + FieldTokens(m.fields), '\0');
      FieldsOfTokens(m.fields, []);
      assert [] + m.fields == m.fields;
      assert ([m.command] + FieldTokens(m.fields))[1..] == FieldTokens(m.fields);
    }
  }

  /**
   Re-encoding what was decoded: possible exactly when no key is empty, and then the
   result decodes to the same message and is at most one byte longer.
   */
  lemma Recode(payload: string)
    requires Decode(payload).Ok?
    ensures var m := Decode(payload).value;
            && (Encodes(m) <==> forall i :: 0 <= i < |m.fields| ==> m.fields[i].key != "")
            && Decode(Payload(m)) == Ok(m)
            && |Payload(m)| <= |payload| + 1
  {
    var m := Decode(payload).value;
    DecodedShape(payload);
    var tokens := Split(payload, '\0');
    SplitTerminated(tokens, '\0');
    TerminatedSplitLength(payload, '\0');
  }

  lemma FieldWithinToken(f: Field, token: string)
    requires token == Entry(f.key, f.value) && IsToken(token, '\0')
    ensures '\0' !in f.key && '\0' !in f.value
  {
    assert forall i :: 0 <= i < |f.key| ==> token[i] == f.key[i];
    assert forall i :: 0 <= i < |f.value| ==> token[|f.key| + 1 + i] == f.value[i];
  }
}
