/** Worked decodes for a two-field struct `User { Name string; Admin bool }`,
    in two steps: what single `/VALUE` lines do (a string field takes the text,
    a boolean field takes only `strconv.ParseBool`'s tokens, an unknown key is
    fatal), and what sequences of those line effects decode to (the framing at
    blank lines, the zero value of a field whose value did not parse, the
    record number a `RecordError` carries, and the errors returned with a fatal
    one). */
module DecodeExample {
  import opened Wrappers
  import opened GoText
  import opened Schema
  import opened Coerce
  import opened Decode

  const UserFields: seq<Field> := [Field("Name", StringKind), Field("Admin", BoolKind)]

  /** A content line `k=v` whose value has no space at either end hands `v`
      to `set`. */
  lemma KeyValueLine(k: string, v: string, parseFloat: FloatParser)
    requires '=' !in k && |k| > 0 && |v| > 0
    requires !IsSpace(k[0]) && !IsSpace(v[0]) && !IsSpace(v[|v| - 1])
    ensures Effect(UserFields, k + "=" + v, parseFloat) == Assignment(k, Set(UserFields, k, v, parseFloat))
  {
    var l := k + "=" + v;
    assert l[0] == k[0] && l[|l| - 1] == v[|v| - 1];
    EffectOfKeyValue(UserFields, l, k, v, parseFloat);
  }

  /** A `Name` line sets the string field to the text after `=`. */
  lemma NameLine(l: string, v: string, parseFloat: FloatParser)
    requires l == "Name=" + v && |v| > 0 && !IsSpace(v[0]) && !IsSpace(v[|v| - 1])
    ensures Effect(UserFields, l, parseFloat) == Assignment("Name", Coerced(0, VString(v)))
  {
    assert Set(UserFields, "Name", v, parseFloat) == Coerced(0, VString(v)) by {
      assert UserFields[0].name == "Name";
      SetString(UserFields, 0, v, parseFloat);
    }
    assert "Name" + "=" + v == l;
    KeyValueLine("Name", v, parseFloat);
  }

  /** An `Admin` line whose value is one of the true tokens sets `true`. */
  lemma AdminTrueLine(l: string, v: string, parseFloat: FloatParser)
    requires l == "Admin=" + v && |v| > 0 && !IsSpace(v[0]) && !IsSpace(v[|v| - 1])
    requires v in Strconv.TrueTokens
    ensures Effect(UserFields, l, parseFloat) == Assignment("Admin", Coerced(1, VBool(true)))
  {
    assert Set(UserFields, "Admin", v, parseFloat) == Coerced(1, VBool(true)) by {
      assert UserFields[1].name == "Admin";
      SetBool(UserFields, 1, v, parseFloat);
    }
    assert "Admin" + "=" + v == l;
    KeyValueLine("Admin", v, parseFloat);
  }

  /** An `Admin` line whose value is no boolean token fails to parse. */
  lemma AdminRefusedLine(l: string, v: string, parseFloat: FloatParser)
    requires l == "Admin=" + v && |v| > 0 && !IsSpace(v[0]) && !IsSpace(v[|v| - 1])
    requires v !in Strconv.TrueTokens && v !in Strconv.FalseTokens
    ensures Effect(UserFields, l, parseFloat) == Assignment("Admin", ParseFailed)
  {
    assert Set(UserFields, "Admin", v, parseFloat) == ParseFailed by {
      assert UserFields[1].name == "Admin";
      SetBool(UserFields, 1, v, parseFloat);
    }
    assert "Admin" + "=" + v == l;
    KeyValueLine("Admin", v, parseFloat);
  }

  /** `strconv.ParseBool` refuses "yes": no accepted token has three letters. */
  lemma YesIsNotABool()
    ensures "yes" !in Strconv.TrueTokens && "yes" !in Strconv.FalseTokens
  {
    assert forall t :: t in Strconv.TrueTokens + Strconv.FalseTokens ==> |t| != 3;
  }

  /** An empty line is blank. */
  lemma BlankEmpty(parseFloat: FloatParser)
    ensures Effect(UserFields, "", parseFloat) == BlankLine
  {
    assert AllSpace("");
  }

  /** The effects of the example lines. */
  const Alice := Assignment("Name", Coerced(0, VString("Alice")))
  const AliceAdmin := Assignment("Admin", Coerced(1, VBool(true)))
  const Bob := Assignment("Name", Coerced(0, VString("Bob")))
  const NotABool := Assignment("Admin", ParseFailed)
  const Email := Assignment("Email", Fatal(FieldError("Email")))

  /** The example lines. */
  const NameAlice: string := "Name=Alice"
  const NameBob: string := "Name=Bob"
  const AdminTrueText: string := "Admin=true"
  const AdminYesText: string := "Admin=yes"
  const EmailText: string := "Email=alice"

  /** Each example line has the effect named after it. */
  lemma AliceLine(parseFloat: FloatParser)
    ensures Effect(UserFields, NameAlice, parseFloat) == Alice
  {
    NameLine(NameAlice, "Alice", parseFloat);
  }

  lemma BobLine(parseFloat: FloatParser)
    ensures Effect(UserFields, NameBob, parseFloat) == Bob
  {
    NameLine(NameBob, "Bob", parseFloat);
  }

  lemma AdminTrue(parseFloat: FloatParser)
    ensures Effect(UserFields, AdminTrueText, parseFloat) == AliceAdmin
  {
    AdminTrueLine(AdminTrueText, "true", parseFloat);
  }

  lemma AdminYes(parseFloat: FloatParser)
    ensures Effect(UserFields, AdminYesText, parseFloat) == NotABool
  {
    YesIsNotABool();
    AdminRefusedLine(AdminYesText, "yes", parseFloat);
  }

  /** The first four lines frame Alice's block; the blank lines add none. */
  lemma AliceBlock()
    ensures Blocks([Alice, AliceAdmin, BlankLine, BlankLine]) == [[Alice, AliceAdmin]]
  {
    assert Blocks([Alice]) == [[Alice]] by {
      BlocksSnoc([], Alice);
      assert [] + [Alice] == [Alice];
    }
    assert Blocks([Alice, AliceAdmin]) == [[Alice, AliceAdmin]] by {
      BlocksSnoc([Alice], AliceAdmin);
      assert [Alice] + [AliceAdmin] == [Alice, AliceAdmin];
      assert [[Alice]][..0] + [[Alice] + [AliceAdmin]] == [[Alice, AliceAdmin]];
    }
    assert Blocks([Alice, AliceAdmin, BlankLine]) == [[Alice, AliceAdmin]] by {
      BlocksSnoc([Alice, AliceAdmin], BlankLine);
      assert [Alice, AliceAdmin] + [BlankLine] == [Alice, AliceAdmin, BlankLine];
    }
    BlocksSnoc([Alice, AliceAdmin, BlankLine], BlankLine);
    assert [Alice, AliceAdmin, BlankLine] + [BlankLine] == [Alice, AliceAdmin, BlankLine, BlankLine];
  }

  /** The framer makes two blocks of the six lines. */
  lemma TwoUsersBlocks()
    ensures Blocks([Alice, AliceAdmin, BlankLine, BlankLine, Bob, NotABool]) == [[Alice, AliceAdmin], [Bob, NotABool]]
  {
    var es := [Alice, AliceAdmin, BlankLine, BlankLine, Bob, NotABool];
    AliceBlock();
    assert es[..4] == [Alice, AliceAdmin, BlankLine, BlankLine];
    assert es[..5] == es[..4] + [Bob] && es == es[..5] + [NotABool];
    BlocksSnoc(es[..4], Bob);
    assert Blocks(es[..5]) == [[Alice, AliceAdmin], [Bob]];
    BlocksSnoc(es[..5], NotABool);
    var p := [[Alice, AliceAdmin], [Bob]];
    assert [Bob] + [NotABool] == [Bob, NotABool];
    assert p[..1] + [p[1] + [NotABool]] == [[Alice, AliceAdmin], [Bob, NotABool]];
  }

  const UserZero: Record := [VString(""), VBool(false)]

  lemma AliceRecord()
    ensures Fill(UserZero, [Alice, AliceAdmin]) == [VString("Alice"), VBool(true)]
  {
    FillSnoc(UserZero, [], Alice);
    assert [] + [Alice] == [Alice];
    assert Fill(UserZero, [Alice]) == [VString("Alice"), VBool(false)];
    FillSnoc(UserZero, [Alice], AliceAdmin);
    assert [Alice] + [AliceAdmin] == [Alice, AliceAdmin];
  }

  lemma BobRecord()
    ensures Fill(UserZero, [Bob, NotABool]) == [VString("Bob"), VBool(false)]
  {
    FillSnoc(UserZero, [], Bob);
    assert [] + [Bob] == [Bob];
    assert Fill(UserZero, [Bob]) == [VString("Bob"), VBool(false)];
    FillSnoc(UserZero, [Bob], NotABool);
    assert [Bob] + [NotABool] == [Bob, NotABool];
  }

  /** The records of the two blocks. */
  lemma TwoUsersRecords()
    ensures FillAll(UserZero, [[Alice, AliceAdmin], [Bob, NotABool]]) ==
            [[VString("Alice"), VBool(true)], [VString("Bob"), VBool(false)]]
  {
    FillAllSnoc(UserZero, [], [Alice, AliceAdmin]);
    assert [] + [[Alice, AliceAdmin]] == [[Alice, AliceAdmin]];
    FillAllSnoc(UserZero, [[Alice, AliceAdmin]], [Bob, NotABool]);
    assert [[Alice, AliceAdmin]] + [[Bob, NotABool]] == [[Alice, AliceAdmin], [Bob, NotABool]];
    AliceRecord();
    BobRecord();
  }

  /** A block's errors, numbered `n`, for a block of two lines. */
  lemma PairErrors(className: string, e0: LineEffect, e1: LineEffect, n: int)
    ensures BlockErrors(className, [e0, e1], n) == LineErrors(className, e0, n) + LineErrors(className, e1, n)
  {
    BlockErrorsSnoc(className, [], e0, n);
    assert [] + [e0] == [e0];
    BlockErrorsSnoc(className, [e0], e1, n);
    assert [e0] + [e1] == [e0, e1];
  }

  /** The errors of the two blocks: only Bob's `Admin`, in record 2. */
  lemma TwoUsersErrors()
    ensures Errors("User", [[Alice, AliceAdmin], [Bob, NotABool]]) == [RecordError("User", "Admin", 2)]
  {
    assert Errors("User", [[Alice, AliceAdmin]]) == [] by {
      ErrorsSnoc("User", [], [Alice, AliceAdmin]);
      assert [] + [[Alice, AliceAdmin]] == [[Alice, AliceAdmin]];
      PairErrors("User", Alice, AliceAdmin, 1);
    }
    assert BlockErrors("User", [Bob, NotABool], 2) == [RecordError("User", "Admin", 2)] by {
      PairErrors("User", Bob, NotABool, 2);
    }
    ErrorsSnoc("User", [[Alice, AliceAdmin]], [Bob, NotABool]);
    assert [[Alice, AliceAdmin]] + [[Bob, NotABool]] == [[Alice, AliceAdmin], [Bob, NotABool]];
  }

  /** The zero record of `User`: an empty name, not an administrator. */
  lemma UserZeroIsZero()
    ensures Zero(UserFields) == UserZero
  {
  }

  /** The lines `Name=Alice`, `Admin=true`, two blank lines, `Name=Bob` and
      `Admin=yes` have the effects below: two records, Bob's `Admin` left
      `false` because `yes` does not parse, and one error naming record 2. */
  lemma TwoUsersDecode()
    ensures DecodeEffects("User", UserZero, [Alice, AliceAdmin, BlankLine, BlankLine, Bob, NotABool])
            == Decoded([[VString("Alice"), VBool(true)], [VString("Bob"), VBool(false)]],
                       [RecordError("User", "Admin", 2)])
  {
    assert FirstAbort([Alice, AliceAdmin, BlankLine, BlankLine, Bob, NotABool]) == None;
    TwoUsersBlocks();
    TwoUsersRecords();
    TwoUsersErrors();
  }

  /** `User` has no `Email` field, so setting it is a fatal `FieldError`. */
  lemma EmailLine(parseFloat: FloatParser)
    ensures Effect(UserFields, EmailText, parseFloat) == Email
  {
    assert Set(UserFields, "Email", "alice", parseFloat) == Fatal(FieldError("Email")) by {
      assert FieldIndex(UserFields, "Email") == None;
    }
    assert "Email" + "=" + "alice" == EmailText;
    KeyValueLine("Email", "alice", parseFloat);
  }

  /** The lines `Name=Alice`, `Admin=yes`, a blank line and `Email=alice`
      have the effects below: the unknown key ends the decode with a
      `FieldError`, returning the error the first record already gathered. */
  lemma UnknownFieldDecode()
    ensures DecodeEffects("User", UserZero, [Alice, NotABool, BlankLine, Email])
            == Aborted(FieldError("Email"), [RecordError("User", "Admin", 1)])
  {
    var es := [Alice, NotABool, BlankLine, Email];
    assert FirstAbort(es) == Some(3) by {
      FirstAbortAt(es, 3);
    }
    assert es[..3] == [Alice, NotABool, BlankLine];
    assert Blocks([Alice, NotABool, BlankLine]) == [[Alice, NotABool]] by {
      BlocksSnoc([], Alice);
      assert [] + [Alice] == [Alice];
      BlocksSnoc([Alice], NotABool);
      assert [Alice] + [NotABool] == [Alice, NotABool];
      assert [[Alice]][..0] + [[Alice] + [NotABool]] == [[Alice, NotABool]];
      BlocksSnoc([Alice, NotABool], BlankLine);
      assert [Alice, NotABool] + [BlankLine] == [Alice, NotABool, BlankLine];
    }
    assert Errors("User", [[Alice, NotABool]]) == [RecordError("User", "Admin", 1)] by {
      ErrorsSnoc("User", [], [Alice, NotABool]);
      assert [] + [[Alice, NotABool]] == [[Alice, NotABool]];
      PairErrors("User", Alice, NotABool, 1);
    }
  }

  /** The text of the two-user example, as `bufio.Scanner` yields it. */
  const TwoUsersText: seq<string> := [NameAlice, AdminTrueText, "", "", NameBob, AdminYesText]

  /** Line by line, the text has the effects `TwoUsersDecode` starts from. */
  lemma TwoUsersEffects(parseFloat: FloatParser)
    ensures Effects(UserFields, TwoUsersText, parseFloat) == [Alice, AliceAdmin, BlankLine, BlankLine, Bob, NotABool]
  {
    var ls := TwoUsersText;
    var es := [Alice, AliceAdmin, BlankLine, BlankLine, Bob, NotABool];
    forall i | 0 <= i < |ls|
      ensures es[i] == Effect(UserFields, ls[i], parseFloat)
    {
      if i == 0 {
        assert ls[i] == NameAlice && es[i] == Alice;
        AliceLine(parseFloat);
      } else if i == 1 {
        assert ls[i] == AdminTrueText && es[i] == AliceAdmin;
        AdminTrue(parseFloat);
      } else if i == 2 || i == 3 {
        assert ls[i] == "" && es[i] == BlankLine;
        BlankEmpty(parseFloat);
      } else if i == 4 {
        assert ls[i] == NameBob && es[i] == Bob;
        BobLine(parseFloat);
      } else {
        assert ls[i] == AdminYesText && es[i] == NotABool;
        AdminYes(parseFloat);
      }
    }
    EffectsPointwise(UserFields, ls, parseFloat, es);
  }

  /** The whole decode of the two-user text: the records of Alice (an
      administrator) and of Bob (not one, as `yes` does not parse), and one
      `RecordError` for record 2. */
  lemma TwoUsersDecodeLines(parseFloat: FloatParser)
    ensures DecodeLines(UserFields, "User", TwoUsersText, parseFloat)
            == Decoded([[VString("Alice"), VBool(true)], [VString("Bob"), VBool(false)]],
                       [RecordError("User", "Admin", 2)])
  {
    TwoUsersEffects(parseFloat);
    UserZeroIsZero();
    TwoUsersDecode();
  }

  /** The text of the unknown-field example. */
  const UnknownFieldText: seq<string> := [NameAlice, AdminYesText, "", EmailText]

  lemma UnknownFieldEffects(parseFloat: FloatParser)
    ensures Effects(UserFields, UnknownFieldText, parseFloat) == [Alice, NotABool, BlankLine, Email]
  {
    var ls := UnknownFieldText;
    var es := [Alice, NotABool, BlankLine, Email];
    forall i | 0 <= i < |ls|
      ensures es[i] == Effect(UserFields, ls[i], parseFloat)
    {
      if i == 0 {
        assert ls[i] == NameAlice && es[i] == Alice;
        AliceLine(parseFloat);
      } else if i == 1 {
        assert ls[i] == AdminYesText && es[i] == NotABool;
        AdminYes(parseFloat);
      } else if i == 2 {
        assert ls[i] == "" && es[i] == BlankLine;
        BlankEmpty(parseFloat);
      } else {
        assert ls[i] == EmailText && es[i] == Email;
        EmailLine(parseFloat);
      }
    }
    EffectsPointwise(UserFields, ls, parseFloat, es);
  }

  /** The whole decode of the unknown-field text: a `FieldError` for `Email`,
      returned with the error record 1 had already gathered. */
  lemma UnknownFieldDecodeLines(parseFloat: FloatParser)
    ensures DecodeLines(UserFields, "User", UnknownFieldText, parseFloat)
            == Aborted(FieldError("Email"), [RecordError("User", "Admin", 1)])
  {
    UnknownFieldEffects(parseFloat);
    UserZeroIsZero();
    UnknownFieldDecode();
  }
}
