/**
 The name of the report sheet of the spreadsheet export, derived from the
 record's timestamp and client name (`generate_excel_report`).
 */
module ReportNaming {
  import opened Text

  /** Every report sheet name starts with this. */
  const Prefix: string := "Rpt_"

  /** The spreadsheet's limit on a sheet name's length. */
  const SheetNameLimit: nat := 31

  /** How many characters of the cleaned client name are kept. */
  const NameLimit: nat := 18

  /** How many trailing characters of the cleaned timestamp identify the report. */
  const IdLength: nat := 10

  /** The separators dropped from the timestamp. */
  predicate IsSeparator(c: char)
  {
    c == '-' || c == ':' || c == ' ' || c == '.'
  }

  /** The timestamp with its dashes, colons, spaces and dots dropped, in that order. */
  function CleanTimestamp(timestamp: string): string
  {
    RemoveChar(RemoveChar(RemoveChar(RemoveChar(timestamp, '-'), ':'), ' '), '.')
  }

  /**
   Exactly the separators go: every other character keeps its count, and a
   timestamp without separators is kept as it is.
   */
  lemma CleanTimestampContents(timestamp: string)
    ensures forall c :: multiset(CleanTimestamp(timestamp))[c] == if IsSeparator(c) then 0 else multiset(timestamp)[c]
    ensures (forall i :: 0 <= i < |timestamp| ==> !IsSeparator(timestamp[i])) ==> CleanTimestamp(timestamp) == timestamp
  {
    var a := RemoveChar(timestamp, '-');
    var b := RemoveChar(a, ':');
    var d := RemoveChar(b, ' ');
    var e := RemoveChar(d, '.');
    forall c ensures multiset(e)[c] == if IsSeparator(c) then 0 else multiset(timestamp)[c] {
      if c == '.' {
        assert c !in e;
      } else if c == ' ' {
        assert c !in d;
      } else if c == ':' {
        assert c !in b;
        assert multiset(d)[c] == multiset(b)[c];
      } else if c == '-' {
        assert c !in a;
        assert multiset(b)[c] == multiset(a)[c];
        assert multiset(d)[c] == multiset(b)[c];
      } else {
        assert multiset(a)[c] == multiset(timestamp)[c];
        assert multiset(b)[c] == multiset(a)[c];
        assert multiset(d)[c] == multiset(b)[c];
      }
    }
    if forall i :: 0 <= i < |timestamp| ==> !IsSeparator(timestamp[i]) {
      assert '-' !in timestamp;
      assert a == timestamp;
      assert b == timestamp;
      assert d == timestamp;
    }
  }

  /** The last ten characters of the cleaned timestamp (all of it when shorter). */
  function UniqueId(timestamp: string): (r: string)
    ensures IsSuffix(r, CleanTimestamp(timestamp))
    ensures |r| == IdLength || r == CleanTimestamp(timestamp)
    ensures |r| <= IdLength
  {
    TakeLast(CleanTimestamp(timestamp), IdLength)
  }

  /** Decimal digits only. */
  predicate Digits(s: string)
  {
    forall i :: 0 <= i < |s| ==> '0' <= s[i] <= '9'
  }

  /** The shape of a "%Y-%m-%d %H:%M:%S.%f" timestamp, as the record's creation time has. */
  predicate StandardTimestamp(ts: string)
  {
    && |ts| == 26
    && ts[4] == '-' && ts[7] == '-' && ts[10] == ' ' && ts[13] == ':' && ts[16] == ':' && ts[19] == '.'
    && Digits(ts[..4]) && Digits(ts[5..7]) && Digits(ts[8..10]) && Digits(ts[11..13])
    && Digits(ts[14..16]) && Digits(ts[17..19]) && Digits(ts[20..])
  }

  /** Cleaning distributes over concatenation. */
  lemma CleanAppend(a: string, b: string)
    ensures CleanTimestamp(a + b) == CleanTimestamp(a) + CleanTimestamp(b)
  {
    RemoveCharAppend(a, b, '-');
    var a1, b1 := RemoveChar(a, '-'), RemoveChar(b, '-');
    RemoveCharAppend(a1, b1, ':');
    var a2, b2 := RemoveChar(a1, ':'), RemoveChar(b1, ':');
    RemoveCharAppend(a2, b2, ' ');
    RemoveCharAppend(RemoveChar(a2, ' '), RemoveChar(b2, ' '), '.');
  }

  /** A run of digits is kept as it is. */
  lemma CleanDigits(d: string)
    requires Digits(d)
    ensures CleanTimestamp(d) == d
  {
    CleanTimestampContents(d);
  }

  /** A lone separator is dropped. */
  lemma CleanSeparator(c: char)
    requires IsSeparator(c)
    ensures CleanTimestamp([c]) == []
  {
    var a := RemoveChar([c], '-');
    var b := RemoveChar(a, ':');
    var d := RemoveChar(b, ' ');
    if c == '-' {
      assert a == [];
    } else if c == ':' {
      assert a == [c];
      assert b == [];
    } else if c == ' ' {
      assert b == [c];
      assert d == [];
    } else {
      assert d == [c];
    }
  }

  /** Appending a separator leaves the cleaned text as it was. */
  lemma CleanDropsSeparator(a: string, c: char)
    requires IsSeparator(c)
    ensures CleanTimestamp(a + [c]) == CleanTimestamp(a)
  {
    CleanAppend(a, [c]);
    CleanSeparator(c);
  }

  /** Appending a separator and a run of digits appends just the digits. */
  lemma CleanSeparatorDigits(a: string, c: char, d: string)
    requires IsSeparator(c) && Digits(d)
    ensures CleanTimestamp(a + [c] + d) == CleanTimestamp(a) + d
  {
    CleanAppend(a + [c], d);
    CleanDropsSeparator(a, c);
    CleanDigits(d);
  }

  /** Seven runs of digits joined by separators clean to the runs alone. */
  lemma CleanJoined(p0: string, c1: char, p1: string, c2: char, p2: string, c3: char, p3: string,
                    c4: char, p4: string, c5: char, p5: string, c6: char, p6: string)
    requires Digits(p0) && Digits(p1) && Digits(p2) && Digits(p3) && Digits(p4) && Digits(p5) && Digits(p6)
    requires IsSeparator(c1) && IsSeparator(c2) && IsSeparator(c3) && IsSeparator(c4) && IsSeparator(c5) && IsSeparator(c6)
    ensures CleanTimestamp(p0 + [c1] + p1 + [c2] + p2 + [c3] + p3 + [c4] + p4 + [c5] + p5 + [c6] + p6)
         == p0 + p1 + p2 + p3 + p4 + p5 + p6
  {
    var s1 := p0 + [c1] + p1;
    var s2 := s1 + [c2] + p2;
    var s3 := s2 + [c3] + p3;
    var s4 := s3 + [c4] + p4;
    var s5 := s4 + [c5] + p5;
    CleanDigits(p0);
    CleanSeparatorDigits(p0, c1, p1);
    CleanSeparatorDigits(s1, c2, p2);
    CleanSeparatorDigits(s2, c3, p3);
    CleanSeparatorDigits(s3, c4, p4);
    CleanSeparatorDigits(s4, c5, p5);
    CleanSeparatorDigits(s5, c6, p6);
  }

  /** A standard timestamp cleans to its fourteen date-and-time digits and six microsecond digits. */
  lemma StandardClean(ts: string)
    requires StandardTimestamp(ts)
    ensures CleanTimestamp(ts) == ts[..4] + ts[5..7] + ts[8..10] + ts[11..13] + ts[14..16] + ts[17..19] + ts[20..]
  {
    StandardPieces(ts);
    CleanJoined(ts[..4], ts[4], ts[5..7], ts[7], ts[8..10], ts[10], ts[11..13], ts[13],
                ts[14..16], ts[16], ts[17..19], ts[19], ts[20..]);
  }

  /**
   For a standard timestamp the identifier is the minutes, the seconds and the
   microseconds: "2025-11-07 18:45:16.123456" gives "4516123456".
   */
  lemma StandardUniqueId(ts: string)
    requires StandardTimestamp(ts)
    ensures UniqueId(ts) == ts[14..16] + ts[17..19] + ts[20..]
  {
    StandardClean(ts);
    LastTenOfTwenty(ts[..4] + ts[5..7] + ts[8..10] + ts[11..13], ts[14..16], ts[17..19], ts[20..]);
  }

  /** The last ten of twenty characters, the last ten being split 2 + 2 + 6. */
  lemma LastTenOfTwenty(front: string, mm: string, ss: string, us: string)
    requires |front| == 10 && |mm| == 2 && |ss| == 2 && |us| == 6
    ensures TakeLast(front + mm + ss + us, IdLength) == mm + ss + us
  {
    assert front + mm + ss + us == front + (mm + ss + us);
  }

  /** A standard timestamp cut at its six separators. */
  lemma StandardPieces(ts: string)
    requires |ts| == 26
    ensures ts == ts[..4] + [ts[4]] + ts[5..7] + [ts[7]] + ts[8..10] + [ts[10]] + ts[11..13] + [ts[13]]
                + ts[14..16] + [ts[16]] + ts[17..19] + [ts[19]] + ts[20..]
  {
  }

  /** The client name with spaces turned into underscores and dots dropped, before the cut. */
  function NameBody(name: string): (r: string)
    ensures ' ' !in r && '.' !in r
    ensures ' ' !in name && '.' !in name ==> r == name
  {
    var spaced := ReplaceChar(name, ' ', '_');
    assert multiset(RemoveChar(spaced, '.'))[' '] == multiset(spaced)[' '];
    RemoveChar(ReplaceChar(name, ' ', '_'), '.')
  }

  /** The client name segment: at most eighteen characters, no space and no dot. */
  function CleanName(name: string): (r: string)
    ensures r <= NameBody(name)
    ensures |r| == NameLimit || r == NameBody(name)
    ensures |r| <= NameLimit && ' ' !in r && '.' !in r
  {
    PrefixLacks(Take(NameBody(name), NameLimit), NameBody(name), ' ');
    PrefixLacks(Take(NameBody(name), NameLimit), NameBody(name), '.');
    Take(NameBody(name), NameLimit)
  }

  /** The sheet name before the length cap. */
  function FullSheetName(timestamp: string, name: string): string
  {
    Prefix + CleanName(name) + "_" + UniqueId(timestamp)
  }

  /**
   The layout of a report sheet name: "Rpt_", the name segment, "_" and the
   identifier, cut to 31 characters. With a segment of at most eighteen
   characters the cut never reaches the segment or the underscore: only the
   identifier's tail can be lost, and only when the two together exceed 26.
   */
  function Layout(seg: string, id: string): (r: string)
    ensures |r| <= SheetNameLimit
    ensures |r| == SheetNameLimit || r == Prefix + seg + "_" + id
    ensures r <= Prefix + seg + "_" + id
    ensures |seg| <= NameLimit ==> Prefix + seg + "_" <= r
    ensures |seg| + |id| <= SheetNameLimit - |Prefix| - 1 <==> r == Prefix + seg + "_" + id
  {
    var full := Prefix + seg + "_" + id;
    assert full[..|Prefix + seg + "_"|] == Prefix + seg + "_";
    Take(full, SheetNameLimit)
  }

  /** The report sheet name of a record, as `generate_excel_report` builds it. */
  function SheetName(timestamp: string, name: string): (r: string)
    ensures |r| <= SheetNameLimit
    ensures |r| == SheetNameLimit || r == FullSheetName(timestamp, name)
    ensures r <= FullSheetName(timestamp, name)
    ensures Prefix + CleanName(name) + "_" <= r
    ensures |CleanName(name)| + |UniqueId(timestamp)| <= SheetNameLimit - |Prefix| - 1
      <==> r == FullSheetName(timestamp, name)
  {
    Layout(CleanName(name), UniqueId(timestamp))
  }

  /** The characters a spreadsheet sheet name may not contain. */
  const SheetForbidden: set<char> := {'\\', '*', '?', ':', '/', '[', ']'}

  /** A name the spreadsheet accepts as a sheet name, as far as characters go. */
  predicate Allowed(s: string)
  {
    forall i :: 0 <= i < |s| ==> s[i] !in SheetForbidden
  }

  /** Allowed distributes over concatenation. */
  lemma AllowedConcat(a: string, b: string)
    ensures Allowed(a + b) <==> Allowed(a) && Allowed(b)
  {
    if Allowed(a) && Allowed(b) {
      forall i | 0 <= i < |a + b| ensures (a + b)[i] !in SheetForbidden {
        if i >= |a| {
          assert (a + b)[i] == b[i - |a|];
        }
      }
    }
    if Allowed(a + b) {
      forall i | 0 <= i < |a| ensures a[i] !in SheetForbidden {
        assert (a + b)[i] == a[i];
      }
      forall i | 0 <= i < |b| ensures b[i] !in SheetForbidden {
        assert (a + b)[|a| + i] == b[i];
      }
    }
  }

  /**
   The name segment keeps any forbidden character among the client name's
   first eighteen: such a client name yields a sheet name the spreadsheet
   writer refuses.
   */
  lemma SheetNameKeepsForbidden(timestamp: string, name: string, k: nat)
    requires ' ' !in name && '.' !in name
    requires k < |name| && k < NameLimit && name[k] in SheetForbidden
    ensures !Allowed(SheetName(timestamp, name))
  {
    var seg := CleanName(name);
    assert NameBody(name) == name;
    assert k < |seg| && seg[k] == name[k];
    var head := Prefix + seg + "_";
    assert head[|Prefix| + k] == seg[k];
    var r := SheetName(timestamp, name);
    assert head <= r;
    assert r[|Prefix| + k] == head[|Prefix| + k];
  }

  /** The counterexample: a client called "Rossi/Bianchi". */
  lemma RossiBianchi(timestamp: string)
    ensures !Allowed(SheetName(timestamp, "Rossi/Bianchi"))
  {
    SheetNameKeepsForbidden(timestamp, "Rossi/Bianchi", 5);
  }

  /** The corrected name segment: the forbidden characters are dropped as well. */
  function SafeCleanName(name: string): (r: string)
    ensures r <= Strip(NameBody(name), SheetForbidden)
    ensures |r| == NameLimit || r == Strip(NameBody(name), SheetForbidden)
    ensures |r| <= NameLimit && Allowed(r)
    ensures Allowed(NameBody(name)) ==> r == CleanName(name)
  {
    var body := Strip(NameBody(name), SheetForbidden);
    var r := Take(body, NameLimit);
    assert Allowed(r) by {
      forall i | 0 <= i < |r| ensures r[i] !in SheetForbidden {
        assert r[i] == body[i];
      }
    }
    r
  }

  /** The corrected sheet name: the same layout and cut, built on the corrected name segment. */
  function SafeSheetName(timestamp: string, name: string): (r: string)
    ensures |r| <= SheetNameLimit
    ensures |r| == SheetNameLimit || r == Prefix + SafeCleanName(name) + "_" + UniqueId(timestamp)
    ensures r <= Prefix + SafeCleanName(name) + "_" + UniqueId(timestamp)
    ensures Prefix + SafeCleanName(name) + "_" <= r
  {
    Layout(SafeCleanName(name), UniqueId(timestamp))
  }

  /** The correction changes nothing for a client name without forbidden characters. */
  lemma SafeAgrees(timestamp: string, name: string)
    requires Allowed(NameBody(name))
    ensures SafeSheetName(timestamp, name) == SheetName(timestamp, name)
  {
    assert SafeCleanName(name) == CleanName(name);
  }

  /** With a timestamp whose only forbidden character is the colon, the identifier is allowed. */
  lemma UniqueIdAllowed(timestamp: string)
    requires forall i :: 0 <= i < |timestamp| ==> timestamp[i] == ':' || timestamp[i] !in SheetForbidden
    ensures Allowed(UniqueId(timestamp))
  {
    var id := UniqueId(timestamp);
    var clean := CleanTimestamp(timestamp);
    CleanTimestampContents(timestamp);
    forall i | 0 <= i < |id| ensures id[i] !in SheetForbidden {
      var c := id[i];
      var j := |clean| - |id| + i;
      assert IsSuffix(id, clean);
      assert c == clean[j];
      assert c in multiset(clean);
      var n := multiset(clean)[c];
      assert n == if IsSeparator(c) then 0 else multiset(timestamp)[c];
      assert !IsSeparator(c) && multiset(timestamp)[c] > 0;
      CountedOccurs(timestamp, c);
      var t :| 0 <= t < |timestamp| && timestamp[t] == c;
      assert c != ':';
    }
  }

  /**
   With a timestamp whose only forbidden character is the colon (any
   "%Y-%m-%d %H:%M:%S.%f" timestamp), the corrected sheet name is allowed
   whatever the client name.
   */
  lemma SafeSheetNameAllowed(timestamp: string, name: string)
    requires forall i :: 0 <= i < |timestamp| ==> timestamp[i] == ':' || timestamp[i] !in SheetForbidden
    ensures Allowed(SafeSheetName(timestamp, name))
  {
    UniqueIdAllowed(timestamp);
    AllowedLayout(SafeCleanName(name), UniqueId(timestamp));
    AllowedPrefix(SafeSheetName(timestamp, name), Prefix + SafeCleanName(name) + "_" + UniqueId(timestamp));
  }

  /** A digit is never a forbidden sheet-name character. */
  lemma DigitAllowed(c: char)
    requires '0' <= c <= '9'
    ensures c !in SheetForbidden
  {
  }

  /** The only forbidden character a "%Y-%m-%d %H:%M:%S.%f" timestamp holds is the colon. */
  lemma StandardOnlyColon(ts: string)
    requires StandardTimestamp(ts)
    ensures forall i :: 0 <= i < |ts| ==> ts[i] == ':' || ts[i] !in SheetForbidden
  {
    forall i | 0 <= i < |ts| ensures ts[i] == ':' || ts[i] !in SheetForbidden {
      if i < 4 { assert ts[i] == ts[..4][i]; DigitAllowed(ts[i]); }
      else if 4 < i < 7 { assert ts[i] == ts[5..7][i - 5]; DigitAllowed(ts[i]); }
      else if 7 < i < 10 { assert ts[i] == ts[8..10][i - 8]; DigitAllowed(ts[i]); }
      else if 10 < i < 13 { assert ts[i] == ts[11..13][i - 11]; DigitAllowed(ts[i]); }
      else if 13 < i < 16 { assert ts[i] == ts[14..16][i - 14]; DigitAllowed(ts[i]); }
      else if 16 < i < 19 { assert ts[i] == ts[17..19][i - 17]; DigitAllowed(ts[i]); }
      else if 19 < i { assert ts[i] == ts[20..][i - 20]; DigitAllowed(ts[i]); }
    }
  }

  /** For every timestamp the record produces, the corrected sheet name is allowed, whatever the client name. */
  lemma StandardSafeSheetNameAllowed(ts: string, name: string)
    requires StandardTimestamp(ts)
    ensures Allowed(SafeSheetName(ts, name))
  {
    StandardOnlyColon(ts);
    SafeSheetNameAllowed(ts, name);
  }

  /** The fixed parts of the layout are allowed, so the whole is when both segments are. */
  lemma AllowedLayout(seg: string, id: string)
    requires Allowed(seg) && Allowed(id)
    ensures Allowed(Prefix + seg + "_" + id)
  {
    assert Allowed(Prefix) && Allowed("_");
    AllowedConcat(Prefix, seg);
    AllowedConcat(Prefix + seg, "_");
    AllowedConcat(Prefix + seg + "_", id);
  }

  /** A prefix of an allowed name is allowed. */
  lemma AllowedPrefix(t: string, s: string)
    requires t <= s && Allowed(s)
    ensures Allowed(t)
  {
    forall i | 0 <= i < |t| ensures t[i] !in SheetForbidden {
      assert t[i] == s[i];
    }
  }
}
