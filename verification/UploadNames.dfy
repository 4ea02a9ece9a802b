/**
 * Hardening a client's file name (services/uploads.py, safe_name): a base name that Windows can
 * open, at most MAX_NAME_BYTES long in UTF-8, whatever the text was.
 */
module UploadNames {
  import opened Utf8

  const MAX_NAME_BYTES := 200
  const SENTINEL := ".uploads-root"

  function Base(raw: string): (name: string)
    ensures forall i :: 0 <= i < |name| ==> name[i] != '/' && name[i] != '\\'
    decreases |raw|
  {
    if raw == "" then ""
    else
      var last := raw[|raw| - 1];
      if last == '/' || last == '\\' then "" else Base(raw[..|raw| - 1]) + [last]
  }

  predicate Illegal(c: char) {
    c < ' ' || c == '<' || c == '>' || c == ':' || c == '"' || c == '\\' || c == '|' || c == '?' || c == '*'
  }

  function Cleaned(s: string): (r: string)
    ensures |r| == |s| && forall i :: 0 <= i < |r| ==> r[i] == if Illegal(s[i]) then '_' else s[i]
  {
    seq(|s|, i requires 0 <= i < |s| => if Illegal(s[i]) then '_' else s[i])
  }

  /** `lstrip(".")` */
  function WithoutLeadingDots(s: string): string {
    if s != "" && s[0] == '.' then WithoutLeadingDots(s[1..]) else s
  }

  predicate Drops(c: char) { c == '.' || c == ' ' }

  /** `rstrip(". ")` */
  function WithoutTail(s: string): string
    decreases |s|
  {
    if s != "" && Drops(s[|s| - 1]) then WithoutTail(s[..|s| - 1]) else s
  }

  /** The text before the first dot, and from it on. */
  function Stem(s: string): (stem: string)
    ensures '.' !in stem
  {
    if s == "" || s[0] == '.' then "" else [s[0]] + Stem(s[1..])
  }

  function Tail(s: string): string {
    if s == "" || s[0] == '.' then s else Tail(s[1..])
  }

  function Lower(s: string): (r: string)
    ensures |r| == |s|
  {
    seq(|s|, i requires 0 <= i < |s| => if 'A' <= s[i] <= 'Z' then (s[i] as int + 32) as char else s[i])
  }

  /** A device name of Windows, in any case. */
  predicate Reserved(stem: string) {
    var s := Lower(stem);
    || s in ["con", "prn", "aux", "nul", "conin$", "conout$"]
    || (|s| == 4 && s[..3] in ["com", "lpt"] && '0' <= s[3] <= '9')
  }

  /** Cut to `k` bytes: `s.encode(...)[:k].decode("utf-8", "ignore")`. */
  function Cut(s: string, k: nat): string {
    DecodeIgnore(if k < |Encode(s)| then Encode(s)[..k] else Encode(s))
  }

  function Min(a: nat, b: nat): nat { if a < b then a else b }

  /** The name as far as its reserved-word check. */
  function Unreserved(raw: string): string {
    var name := WithoutTail(WithoutLeadingDots(Cleaned(Base(raw))));
    if Reserved(Stem(name)) then Stem(name) + "_file" + Tail(name) else name
  }

  function CutTail(name: string): string { Cut(Tail(name), MAX_NAME_BYTES / 2) }

  function CutStem(name: string): string {
    Cut(Stem(name), MAX_NAME_BYTES - Min(|Encode(Tail(name))|, MAX_NAME_BYTES / 2))
  }

  function Capped(name: string): string {
    if |Encode(name)| > MAX_NAME_BYTES then WithoutTail(CutStem(name) + CutTail(name)) else name
  }

  function SafeName(raw: string): string {
    var name := Capped(Unreserved(raw));
    if name == "" then "upload" else name
  }

  /** The stages as the code writes them. */
  method Harden(raw: string) returns (name: string, rewritten: bool)
    ensures name == SafeName(raw) && (rewritten <==> !Fine(raw))
    ensures Openable(name)
  {
    name := Base(raw);
    name := Cleaned(name);
    name := WithoutLeadingDots(name);
    name := WithoutTail(name);
    var stem, tail := Stem(name), Tail(name);
    StemAndTail(name);
    if Reserved(stem) {
      StemOfParts(stem + "_file", tail);
      stem := stem + "_file";
      name := stem + tail;
    }
    name := CapBytes(name, stem, tail);
    if name == "" {
      name := "upload";
    }
    rewritten := name != raw;
    UnchangedIffFine(raw);
    SafeNameIsOpenable(raw);
  }

  /** The cap leaves the extension room for half of the bytes, so that it survives. */
  method CapBytes(full: string, stem: string, tail: string) returns (name: string)
    requires stem == Stem(full) && tail == Tail(full)
    ensures name == Capped(full)
  {
    name := full;
    if |Encode(name)| > MAX_NAME_BYTES {
      var tailBytes := Encode(tail);
      if |tailBytes| > MAX_NAME_BYTES / 2 { tailBytes := tailBytes[..MAX_NAME_BYTES / 2]; }
      var keep := MAX_NAME_BYTES - |tailBytes|;
      var stemBytes := Encode(stem);
      if |stemBytes| > keep { stemBytes := stemBytes[..keep]; }
      name := DecodeIgnore(stemBytes) + DecodeIgnore(tailBytes);
      name := WithoutTail(name);
    }
  }

  // --- what the result is ---------------------------------------------------------------------------

  /** Everything promised of a stored name but its stem. */
  predicate Openable(name: string) {
    && name != "" && |Encode(name)| <= MAX_NAME_BYTES
    && (forall i :: 0 <= i < |name| ==> !Illegal(name[i]) && name[i] != '/')
    && name[0] != '.' && !Drops(name[|name| - 1]) && name != SENTINEL
  }

  /** A name that needs no rewriting. */
  predicate Fine(name: string) { Openable(name) && !Reserved(Stem(name)) }

  predicate Clean(s: string) { forall i :: 0 <= i < |s| ==> !Illegal(s[i]) && s[i] != '/' }

  lemma {:induction false} StemAndTail(s: string)
    ensures s == Stem(s) + Tail(s) && (Tail(s) != "" ==> Tail(s)[0] == '.')
  {
    if s == "" || s[0] == '.' {
    } else {
      StemAndTail(s[1..]);
    }
  }

  lemma {:induction false} StemOfParts(stem: string, tail: string)
    requires '.' !in stem && (tail != "" ==> tail[0] == '.')
    ensures Stem(stem + tail) == stem && Tail(stem + tail) == tail
  {
    if stem == "" {
      assert stem + tail == tail;
    } else {
      assert stem[0] in stem;
      assert (stem + tail)[1..] == stem[1..] + tail;
      StemOfParts(stem[1..], tail);
    }
  }

  lemma {:induction false} LeadingDotsGone(s: string)
    requires Clean(s)
    ensures var r := WithoutLeadingDots(s); Clean(r) && (r != "" ==> r[0] != '.')
  {
    if s != "" && s[0] == '.' { LeadingDotsGone(s[1..]); }
  }

  /** `rstrip` cuts a tail of dots and spaces, and all of it. */
  lemma {:induction false} TailGone(s: string)
    ensures var r := WithoutTail(s);
      r <= s && (r != "" ==> !Drops(r[|r| - 1])) && forall i :: |r| <= i < |s| ==> Drops(s[i])
    decreases |s|
  {
    if s != "" && Drops(s[|s| - 1]) { TailGone(s[..|s| - 1]); }
  }

  lemma {:induction false} PrefixIsShorter(s: string, t: string)
    requires s <= t
    ensures |Encode(s)| <= |Encode(t)|
  {
    EncodeConcat(s, t[|s|..]);
    assert t == s + t[|s|..];
  }

  lemma CutIsWholeChars(s: string, k: nat)
    ensures Cut(s, k) == WholeChars(s, Min(k, |Encode(s)|))
    ensures Cut(s, k) <= s && |Encode(Cut(s, k))| <= k
    ensures |Encode(s)| <= k ==> Cut(s, k) == s
  {
    var n := Min(k, |Encode(s)|);
    CutKeepsWholeChars(s, n);
    WholeCharsIsLongest(s, n);
    EncodedReadsBack(s);
    assert Encode(s)[..|Encode(s)|] == Encode(s);
  }

  /** A clean name without leading dots. */
  predicate Trimmed(s: string) { Clean(s) && (s != "" ==> s[0] != '.' && !Drops(s[|s| - 1])) }

  lemma TrimmedStart(raw: string)
    ensures Trimmed(WithoutTail(WithoutLeadingDots(Cleaned(Base(raw)))))
  {
    var clean := Cleaned(Base(raw));
    LeadingDotsGone(clean);
    TailGone(WithoutLeadingDots(clean));
  }

  lemma UnreservedIsTrimmed(raw: string)
    ensures Trimmed(Unreserved(raw)) && !Reserved(Stem(Unreserved(raw)))
  {
    var name := WithoutTail(WithoutLeadingDots(Cleaned(Base(raw))));
    TrimmedStart(raw);
    StemAndTail(name);
    if Reserved(Stem(name)) {
      StemOfParts(Stem(name) + "_file", Tail(name));
      ReservedPlusFile(Stem(name), Tail(name));
      assert name == Stem(name) + Tail(name);
      PartsAreTrimmed(Stem(name), Tail(name));
    }
  }

  lemma ReservedPlusFile(stem: string, tail: string)
    requires Reserved(stem)
    ensures stem != "" && !Reserved(stem + "_file")
  {
    assert |stem| >= 3 && |stem + "_file"| >= 8;
  }

  lemma PartsAreTrimmed(stem: string, tail: string)
    requires stem != "" && Trimmed(stem + tail)
    ensures Trimmed(stem + "_file" + tail)
  {
    var s, t := stem + tail, stem + "_file" + tail;
    assert forall i :: 0 <= i < |stem| ==> s[i] == stem[i] == t[i];
    assert forall i :: 0 <= i < |tail| ==> s[|stem| + i] == tail[i] == t[|stem| + 5 + i];
    assert t[|stem|..|stem| + 5] == "_file";
    assert forall i :: 0 <= i < 5 ==> t[|stem| + i] == "_file"[i];
  }

  lemma CappedIsShort(name: string)
    ensures |Encode(Capped(name))| <= MAX_NAME_BYTES
  {
    if |Encode(name)| > MAX_NAME_BYTES {
      var room := Min(|Encode(Tail(name))|, MAX_NAME_BYTES / 2);
      CutIsWholeChars(Stem(name), MAX_NAME_BYTES - room);
      CutIsWholeChars(Tail(name), MAX_NAME_BYTES / 2);
      PrefixIsShorter(CutTail(name), Tail(name));
      PiecesAreShort(CutStem(name), CutTail(name), room);
    }
  }

  lemma PiecesAreShort(stem: string, tail: string, room: nat)
    requires |Encode(stem)| + room <= MAX_NAME_BYTES && |Encode(tail)| <= room
    ensures |Encode(WithoutTail(stem + tail))| <= MAX_NAME_BYTES
  {
    EncodeConcat(stem, tail);
    TailGone(stem + tail);
    PrefixIsShorter(WithoutTail(stem + tail), stem + tail);
  }

  /** Beginnings of a stem and of a tail are as clean as the whole, and so is what `rstrip` leaves. */
  lemma PiecesAreTrimmed(stem: string, tail: string, s: string, t: string)
    requires Trimmed(stem + tail) && s <= stem && s != "" && t <= tail
    ensures Trimmed(WithoutTail(s + t))
  {
    var name, cut := stem + tail, s + t;
    TailGone(cut);
    assert forall i :: 0 <= i < |s| ==> cut[i] == s[i] == stem[i] == name[i];
    assert forall i :: 0 <= i < |t| ==> cut[|s| + i] == t[i] == tail[i] == name[|stem| + i];
    forall i | 0 <= i < |cut| ensures !Illegal(cut[i]) && cut[i] != '/' {
      assert if i < |s| then cut[i] == name[i] else cut[|s| + (i - |s|)] == name[|stem| + (i - |s|)];
    }
  }

  lemma CutsArePrefixes(name: string)
    ensures CutStem(name) <= Stem(name) && CutTail(name) <= Tail(name)
  {
    CutIsWholeChars(Stem(name), MAX_NAME_BYTES - Min(|Encode(Tail(name))|, MAX_NAME_BYTES / 2));
    CutIsWholeChars(Tail(name), MAX_NAME_BYTES / 2);
  }

  lemma CutIsTrimmed(name: string, stem: string, tail: string, s: string, t: string)
    requires Trimmed(name) && name == stem + tail && s <= stem && s != "" && t <= tail
    ensures Trimmed(WithoutTail(s + t))
  {
    PiecesAreTrimmed(stem, tail, s, t);
  }

  lemma CappedIsTrimmed(name: string)
    requires Trimmed(name)
    ensures Trimmed(Capped(name))
  {
    if |Encode(name)| > MAX_NAME_BYTES {
      StemAndTail(name);
      CutsArePrefixes(name);
      FirstCharStays(name);
      CutIsTrimmed(name, Stem(name), Tail(name), CutStem(name), CutTail(name));
    }
  }

  /** A character has four bytes at most. */
  lemma FirstCharFits(s: string, k: nat)
    requires s != "" && k >= 4
    ensures var r := WholeChars(s, Min(k, |Encode(s)|)); r != "" && r[0] == s[0]
  {
  }

  /** The stem keeps at least its first character. */
  lemma FirstCharStays(name: string)
    requires name != "" && name[0] != '.'
    ensures CutStem(name) != "" && CutStem(name)[0] == name[0]
  {
    var keep := MAX_NAME_BYTES - Min(|Encode(Tail(name))|, MAX_NAME_BYTES / 2);
    assert Stem(name) == [name[0]] + Stem(name[1..]);
    CutIsWholeChars(Stem(name), keep);
    FirstCharFits(Stem(name), keep);
  }

  /** Whatever text a client sends, the stored name is never empty, fits, and holds nothing Windows
      or this service refuses. */
  lemma SafeNameIsOpenable(raw: string)
    ensures Openable(SafeName(raw))
  {
    UnreservedIsTrimmed(raw);
    CappedIsTrimmed(Unreserved(raw));
    CappedIsShort(Unreserved(raw));
    UploadIsOpenable();
    assert SENTINEL[0] == '.';
  }

  lemma UploadIsOpenable()
    ensures Openable("upload")
  {
    assert "upload"[0] == 'u' && SENTINEL[0] == '.';
    SixBytes("upload");
  }

  lemma SixBytes(s: string)
    requires |s| == 6
    ensures |Encode(s)| <= 24
  {
    FourBytesEach(s);
  }

  lemma {:induction false} FourBytesEach(s: string)
    ensures |Encode(s)| <= 4 * |s|
  {
    if s != "" { FourBytesEach(s[1..]); }
  }

  // --- how it is made -------------------------------------------------------------------------------

  predicate IsSeparator(c: char) { c == '/' || c == '\\' }

  /** The base name is what follows the last separator of either kind. */
  lemma {:induction false} BaseIs(raw: string) returns (n: nat)
    ensures n <= |raw| && Base(raw) == raw[n..]
    ensures (n > 0 ==> IsSeparator(raw[n - 1])) && forall i :: n <= i < |raw| ==> !IsSeparator(raw[i])
    decreases |raw|
  {
    if raw == "" {
      n := 0;
    } else if IsSeparator(raw[|raw| - 1]) {
      n := |raw|;
    } else {
      n := BaseIs(raw[..|raw| - 1]);
      assert raw[n..] == raw[..|raw| - 1][n..] + [raw[|raw| - 1]];
    }
  }

  /** `lstrip` cuts a beginning of dots, and all of it. */
  lemma {:induction false} LeadingDotsAre(s: string) returns (n: nat)
    ensures n <= |s| && WithoutLeadingDots(s) == s[n..] && (n < |s| ==> s[n] != '.')
    ensures forall i :: 0 <= i < n ==> s[i] == '.'
  {
    if s != "" && s[0] == '.' {
      var rest := LeadingDotsAre(s[1..]);
      n := rest + 1;
    } else {
      n := 0;
    }
  }

  /** A name over the limit keeps its first 100 bytes from the first dot on, and as much of what is before it
      as then fits into 200, both in whole characters and without the dots and spaces that this leaves last. */
  lemma LongNameIsCut(name: string)
    requires |Encode(name)| > 200
    ensures var room := if |Encode(Tail(name))| < 100 then |Encode(Tail(name))| else 100;
      var keep := if |Encode(Stem(name))| < 200 - room then |Encode(Stem(name))| else 200 - room;
      Capped(name) == WithoutTail(WholeChars(Stem(name), keep) + WholeChars(Tail(name), room))
  {
    var room := Min(|Encode(Tail(name))|, MAX_NAME_BYTES / 2);
    CutIsWholeChars(Stem(name), MAX_NAME_BYTES - room);
    CutIsWholeChars(Tail(name), MAX_NAME_BYTES / 2);
  }

  /** The characters that are replaced: control characters and eight others. */
  lemma IllegalAre(c: char)
    ensures Illegal(c) <==> (c as int) < 32 || c in ['<', '>', ':', '"', '\\', '|', '?', '*']
  {
  }

  const NAMED_DEVICES := ["con", "prn", "aux", "nul", "conin$", "conout$"]
  const NUMBERED_DEVICES := ["com", "lpt"]
  const DIGITS := "0123456789"

  predicate IsLetterOf(c: char, lower: char) {
    c == lower || ('a' <= lower <= 'z' && c as int + 32 == lower as int)
  }

  /** In capitals, small letters or both. */
  predicate Spells(stem: string, device: string) {
    |stem| == |device| && forall i :: 0 <= i < |stem| ==> IsLetterOf(stem[i], device[i])
  }

  predicate NoCapitals(s: string) { forall i :: 0 <= i < |s| ==> !('A' <= s[i] <= 'Z') }

  lemma LowerSpells(stem: string, device: string)
    requires NoCapitals(device)
    ensures Lower(stem) == device <==> Spells(stem, device)
  {
  }

  predicate SpellsNamed(stem: string) { exists i :: 0 <= i < 6 && Spells(stem, NAMED_DEVICES[i]) }

  predicate SpellsNumbered(stem: string) {
    exists i, j :: 0 <= i < 2 && 0 <= j < 10 && Spells(stem, NUMBERED_DEVICES[i] + [DIGITS[j]])
  }

  lemma NamedAre(stem: string)
    ensures SpellsNamed(stem) <==> Lower(stem) in ["con", "prn", "aux", "nul", "conin$", "conout$"]
  {
    forall i | 0 <= i < 6 ensures Lower(stem) == NAMED_DEVICES[i] <==> Spells(stem, NAMED_DEVICES[i]) {
      LowerSpells(stem, NAMED_DEVICES[i]);
    }
  }

  lemma NumberedAre(stem: string)
    ensures SpellsNumbered(stem) <==>
      |stem| == 4 && Lower(stem)[..3] in ["com", "lpt"] && '0' <= Lower(stem)[3] <= '9'
  {
    var s := Lower(stem);
    forall i, j | 0 <= i < 2 && 0 <= j < 10
      ensures Spells(stem, NUMBERED_DEVICES[i] + [DIGITS[j]]) <==>
              |s| == 4 && s[..3] == NUMBERED_DEVICES[i] && s[3] == DIGITS[j]
    {
      var device := NUMBERED_DEVICES[i] + [DIGITS[j]];
      LowerSpells(stem, device);
      assert device[..3] == NUMBERED_DEVICES[i] && device[3] == DIGITS[j];
      assert |s| == 4 ==> s == s[..3] + [s[3]];
    }
    if |s| == 4 && '0' <= s[3] <= '9' { assert s[3] == DIGITS[s[3] as int - 48]; }
  }

  /** The device names are these six and the two numbered ones with any digit, in any case. */
  lemma ReservedAre(stem: string)
    ensures Reserved(stem) <==> SpellsNamed(stem) || SpellsNumbered(stem)
  {
    NamedAre(stem);
    NumberedAre(stem);
  }

  /** A device name before the first dot gets "_file" after it; nothing else is added to a name. */
  lemma DeviceIsRenamed(raw: string)
    ensures var name := WithoutTail(WithoutLeadingDots(Cleaned(Base(raw))));
      && |Stem(name)| <= |name| && (|Stem(name)| < |name| ==> name[|Stem(name)|] == '.')
      && Unreserved(raw) == if Reserved(Stem(name)) then Stem(name) + "_file" + name[|Stem(name)|..] else name
  {
    var name := WithoutTail(WithoutLeadingDots(Cleaned(Base(raw))));
    StemAndTail(name);
    assert name[|Stem(name)|..] == Tail(name);
  }

  // --- when it is the client's own name -------------------------------------------------------------

  lemma {:induction false} CleanBaseIsSame(s: string)
    requires Clean(s)
    ensures Base(s) == s && Cleaned(s) == s
    decreases |s|
  {
    if s != "" {
      var n := |s| - 1;
      CleanBaseIsSame(s[..n]);
      assert !Illegal(s[n]) && s[n] != '/';
      assert s == s[..n] + [s[n]];
    }
  }

  lemma TrimmedStaysTheSame(s: string)
    requires Trimmed(s)
    ensures WithoutTail(WithoutLeadingDots(Cleaned(Base(s)))) == s
  {
    CleanBaseIsSame(s);
  }

  /** A name is stored unchanged exactly when it was fine to begin with. */
  lemma UnchangedIffFine(raw: string)
    ensures SafeName(raw) == raw <==> Fine(raw)
  {
    SafeNameIsOpenable(raw);
    if Openable(raw) {
      TrimmedStaysTheSame(raw);
      if Reserved(Stem(raw)) { ReservedIsRenamed(raw); }
    }
  }

  lemma ReservedIsRenamed(raw: string)
    requires Openable(raw) && Reserved(Stem(raw)) && Unreserved(raw) == Stem(raw) + "_file" + Tail(raw)
    ensures SafeName(raw) != raw
  {
    var name := Unreserved(raw);
    var stem := Stem(raw) + "_file";
    StemAndTail(raw);
    StemOfParts(stem, Tail(raw));
    ReservedPlusFile(Stem(raw), Tail(raw));
    if |Encode(name)| > MAX_NAME_BYTES {
      ShortStemIsKept(name);
      CutIsWholeChars(Tail(raw), MAX_NAME_BYTES / 2);
      assert stem[|stem| - 1] == 'e';
      StemIsNotTrimmed(stem, CutTail(name));
    }
  }

  /** `rstrip` stops at a stem that ends in a letter. */
  lemma StemIsNotTrimmed(stem: string, tail: string)
    requires '.' !in stem && (tail != "" ==> tail[0] == '.') && stem != "" && !Drops(stem[|stem| - 1])
    ensures stem <= WithoutTail(stem + tail) && Stem(WithoutTail(stem + tail)) == stem
  {
    var cut := stem + tail;
    var r := WithoutTail(cut);
    TailGone(cut);
    assert cut[|stem| - 1] == stem[|stem| - 1];
    assert r == stem + r[|stem|..];
    StemOfParts(stem, r[|stem|..]);
  }

  lemma ShortStemIsKept(name: string)
    requires |Stem(name)| <= 25
    ensures CutStem(name) == Stem(name)
  {
    FourBytesEach(Stem(name));
    CutIsWholeChars(Stem(name), MAX_NAME_BYTES - Min(|Encode(Tail(name))|, MAX_NAME_BYTES / 2));
  }

  // --- hardening again ------------------------------------------------------------------------------

  predicate OnlyDropped(s: string) { forall i :: 0 <= i < |s| ==> Drops(s[i]) }

  /** A name so long that what is left of it is a device name followed by spaces and dots. */
  predicate CutToDevice(name: string) {
    |Encode(name)| > MAX_NAME_BYTES && OnlyDropped(CutTail(name)) && Reserved(WithoutTail(CutStem(name)))
  }

  lemma {:induction false} DroppedTail(s: string, t: string)
    requires OnlyDropped(t)
    ensures WithoutTail(s + t) == WithoutTail(s)
    decreases |t|
  {
    if t == "" {
      assert s + t == s;
    } else {
      assert (s + t)[..|s + t| - 1] == s + t[..|t| - 1];
      DroppedTail(s, t[..|t| - 1]);
    }
  }

  lemma {:induction false} KeptTail(s: string, t: string)
    requires !OnlyDropped(t)
    ensures WithoutTail(s + t) == s + WithoutTail(t) && WithoutTail(t) != ""
    decreases |t|
  {
    assert (s + t)[|s + t| - 1] == t[|t| - 1];
    if Drops(t[|t| - 1]) {
      assert (s + t)[..|s + t| - 1] == s + t[..|t| - 1];
      KeptTail(s, t[..|t| - 1]);
    }
  }

  lemma {:induction false} NoDotIsAllStem(s: string)
    requires '.' !in s
    ensures Stem(s) == s
  {
    if s != "" { NoDotIsAllStem(s[1..]); }
  }

  lemma UploadIsNotReserved()
    ensures !Reserved(Stem("upload")) && !Reserved("")
  {
    assert '.' !in "upload";
    NoDotIsAllStem("upload");
    assert Lower("upload")[0] == 'u' && "conin$"[0] == 'c';
  }

  lemma LongIsNotReserved(s: string)
    requires |s| > 7
    ensures !Reserved(s)
  {
  }

  /** A stem that was cut is longer than any device name. */
  lemma CutStemIsNotReserved(name: string)
    requires !Reserved(Stem(name))
    ensures !Reserved(CutStem(name))
  {
    var keep := MAX_NAME_BYTES - Min(|Encode(Tail(name))|, MAX_NAME_BYTES / 2);
    var stem := Stem(name);
    CutIsWholeChars(stem, keep);
    if CutStem(name) != stem {
      WholeCharsIsLongest(stem, keep);
      FourBytesEach(stem[..|CutStem(name)| + 1]);
      LongIsNotReserved(CutStem(name));
    }
  }

  lemma StemAfterTrim(stem: string, tail: string)
    requires '.' !in stem && (tail != "" ==> tail[0] == '.')
    ensures Stem(WithoutTail(stem + tail)) == if OnlyDropped(tail) then WithoutTail(stem) else stem
  {
    if OnlyDropped(tail) {
      DroppedTail(stem, tail);
      TailGone(stem);
      NoDotIsAllStem(WithoutTail(stem));
    } else {
      KeptTail(stem, tail);
      TailGone(tail);
      assert WithoutTail(tail)[0] == tail[0] == '.';
      StemOfParts(stem, WithoutTail(tail));
    }
  }

  lemma CutParts(name: string)
    ensures '.' !in CutStem(name) && (CutTail(name) != "" ==> CutTail(name)[0] == '.')
  {
    StemAndTail(name);
    CutIsWholeChars(Stem(name), MAX_NAME_BYTES - Min(|Encode(Tail(name))|, MAX_NAME_BYTES / 2));
    CutIsWholeChars(Tail(name), MAX_NAME_BYTES / 2);
  }

  lemma CutReservedIff(name: string)
    requires Trimmed(name) && |Encode(name)| > MAX_NAME_BYTES && !Reserved(Stem(name))
    ensures Reserved(Stem(Capped(name))) <==> CutToDevice(name)
  {
    CutParts(name);
    CutStemIsNotReserved(name);
    StemAfterTrim(CutStem(name), CutTail(name));
  }

  /** The stored name is a device name exactly when truncation made it one: the reserved-word check
      comes before the cut. In particular it never is when nothing was cut. */
  lemma StoredReservedIff(raw: string)
    ensures Reserved(Stem(SafeName(raw))) <==> CutToDevice(Unreserved(raw))
  {
    var name := Unreserved(raw);
    UnreservedIsTrimmed(raw);
    UploadIsNotReserved();
    if |Encode(name)| > MAX_NAME_BYTES { CutReservedIff(name); }
  }

  /** Hardening a hardened name changes nothing, but for those names. */
  lemma IdempotentIff(raw: string)
    ensures SafeName(SafeName(raw)) == SafeName(raw) <==> !CutToDevice(Unreserved(raw))
  {
    SafeNameIsOpenable(raw);
    UnchangedIffFine(SafeName(raw));
    StoredReservedIff(raw);
  }

  function Spaces(n: nat): (s: string)
    ensures |s| == n && forall i :: 0 <= i < n ==> s[i] == ' '
  {
    seq(n, _ => ' ')
  }

  lemma {:induction false} AsciiBytes(s: string)
    requires forall i :: 0 <= i < |s| ==> s[i] < '\U{80}'
    ensures |Encode(s)| == |s| && forall k: nat :: k <= |s| ==> WholeChars(s, k) == s[..k]
  {
    if s != "" {
      AsciiBytes(s[1..]);
      forall k: nat | k <= |s| ensures WholeChars(s, k) == s[..k] {
        if k > 0 { assert s[..k] == [s[0]] + s[1..][..k - 1]; }
      }
    }
  }

  lemma CappedAscii(name: string)
    requires '.' !in name && |name| > 200 && forall i :: 0 <= i < |name| ==> name[i] < '\U{80}'
    ensures Capped(name) == WithoutTail(name[..200])
  {
    NoDotIsAllStem(name);
    StemAndTail(name);
    AsciiBytes(name);
    CutIsWholeChars(name, 200);
    CutIsWholeChars("", 100);
    assert CutTail(name) == "" && CutStem(name) + "" == CutStem(name);
  }

  lemma PaddedShape(device: string, n: nat)
    requires Trimmed(device) && 0 < |device| && '.' !in device
    requires forall i :: 0 <= i < |device| ==> device[i] < '\U{80}'
    ensures var raw := device + Spaces(n) + "x";
      Trimmed(raw) && '.' !in raw && forall i :: 0 <= i < |raw| ==> raw[i] < '\U{80}'
  {
    var raw := device + Spaces(n) + "x";
    assert raw[|raw| - 1] == 'x' && raw[0] == device[0];
    assert forall i :: 0 <= i < |raw| ==> raw[i] == 'x' || raw[i] == ' ' || (i < |device| && raw[i] == device[i]);
  }

  lemma UnreservedSame(s: string)
    requires Trimmed(s) && '.' !in s && |s| > 7
    ensures Unreserved(s) == s
  {
    TrimmedStaysTheSame(s);
    NoDotIsAllStem(s);
    LongIsNotReserved(s);
  }

  lemma PaddingIsCut(device: string, n: nat)
    requires Trimmed(device) && |device| <= 200 <= n
    ensures WithoutTail((device + Spaces(n) + "x")[..200]) == device
  {
    assert (device + Spaces(n) + "x")[..200] == device + Spaces(200 - |device|);
    DroppedTail(device, Spaces(200 - |device|));
  }

  /** Such names: a device name, spaces past the cut, and a letter are stored as the device name. */
  lemma SpacesLeaveADevice(device: string, n: nat)
    requires Trimmed(device) && 0 < |device| <= 200 <= n && '.' !in device
    requires forall i :: 0 <= i < |device| ==> device[i] < '\U{80}'
    ensures SafeName(device + Spaces(n) + "x") == device
  {
    var raw := device + Spaces(n) + "x";
    PaddedShape(device, n);
    UnreservedSame(raw);
    AsciiBytes(raw);
    CappedAscii(raw);
    PaddingIsCut(device, n);
  }
}
