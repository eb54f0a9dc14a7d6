/** The tag form of the admin UI: internal/webadmin/forms.go and handler.go. */
module Tags {
  import opened Common
  import opened Text

  datatype Problem = BadLine(number: nat) | DuplicateKey(key: string)

  datatype Parsed = Ok(tags: seq<Tag>) | Err(problem: Problem)

  /** Parsing the remaining lines, with the keys seen and the tags collected so far. */
  function ParseFrom(lines: seq<string>, number: nat, seen: set<string>, tags: seq<Tag>): Parsed
    decreases |lines|
  {
    if lines == [] then Ok(tags)
    else
      var line := Trim(lines[0]);
      if line == "" then ParseFrom(lines[1..], number + 1, seen, tags)
      else
        match Cut(line, '=')
        case None => Err(BadLine(number + 1))
        case Some((left, right)) =>
          var tag := Tag(Trim(left), Trim(right));
          if tag.key == "" || tag.value == "" then Err(BadLine(number + 1))
          else if tag.key in seen then Err(DuplicateKey(tag.key))
          else ParseFrom(lines[1..], number + 1, seen + {tag.key}, tags + [tag])
  }

  function Parse(raw: string): Parsed {
    ParseFrom(Lines(raw), 0, {}, [])
  }

  method ParseTags(raw: string) returns (result: Parsed)
    ensures result == Parse(raw)
    ensures result.Ok? ==> WellFormed(result.tags)
  {
    ParsedIsWellFormed(raw);
    var lines := Lines(raw);
    var seen: set<string>, tags: seq<Tag> := {}, [];
    for i := 0 to |lines|
      invariant ParseFrom(lines[i..], i, seen, tags) == Parse(raw)
    {
      assert lines[i..][1..] == lines[i + 1..];
      var line := Trim(lines[i]);
      if line != "" {
        var cut := Cut(line, '=');
        if cut.None? {
          return Err(BadLine(i + 1));
        }
        var key, value := Trim(cut.value.0), Trim(cut.value.1);
        if key == "" || value == "" {
          return Err(BadLine(i + 1));
        }
        if key in seen {
          return Err(DuplicateKey(key));
        }
        seen := seen + {key};
        tags := tags + [Tag(key, value)];
      }
    }
    return Ok(tags);
  }

  function PrintLines(tags: seq<Tag>): seq<string> {
    seq(|tags|, i requires 0 <= i < |tags| => tags[i].key + "=" + tags[i].value)
  }

  function Print(tags: seq<Tag>): string {
    Join(PrintLines(tags))
  }

  method TagsText(tags: seq<Tag>) returns (text: string)
    ensures text == Print(tags)
    ensures WellFormed(tags) ==> Parse(text) == Ok(tags)
  {
    var lines: seq<string> := [];
    for i := 0 to |tags|
      invariant lines == PrintLines(tags)[..i]
    {
      lines := lines + [tags[i].key + "=" + tags[i].value];
    }
    assert lines == PrintLines(tags);
    if WellFormed(tags) {
      PrintedParses(tags);
    }
    return Join(lines);
  }

  // ---------- the two undo each other ----------

  predicate TagOk(t: Tag) {
    && t.key != "" && Trimmed(t.key) && '=' !in t.key && '\n' !in t.key
    && t.value != "" && Trimmed(t.value) && '\n' !in t.value
  }

  predicate WellFormed(tags: seq<Tag>) {
    && (forall i :: 0 <= i < |tags| ==> TagOk(tags[i]))
    && (forall i, j :: 0 <= i < j < |tags| ==> tags[i].key != tags[j].key)
  }

  lemma LineParses(t: Tag)
    requires TagOk(t)
    ensures var line := t.key + "=" + t.value;
            line != "" && '\n' !in line && Trim(line) == line && Cut(line, '=') == Some((t.key, t.value))
    ensures Trim(t.key) == t.key && Trim(t.value) == t.value
  {
    var line := t.key + "=" + t.value;
    TrimFacts(line);
    TrimFacts(t.key);
    TrimFacts(t.value);
    CutJoined(t.key, '=', t.value);
  }

  lemma {:induction false} PrintedLinesParse(tags: seq<Tag>, done: nat, seen: set<string>)
    requires WellFormed(tags) && done <= |tags|
    requires forall k :: k in seen ==> exists i :: 0 <= i < done && tags[i].key == k
    ensures ParseFrom(PrintLines(tags)[done..], done, seen, tags[..done]) == Ok(tags)
    decreases |tags| - done
  {
    var lines := PrintLines(tags)[done..];
    if done < |tags| {
      var t := tags[done];
      LineParses(t);
      assert lines[0] == t.key + "=" + t.value && lines[1..] == PrintLines(tags)[done + 1..];
      assert tags[..done] + [t] == tags[..done + 1];
      PrintedLinesParse(tags, done + 1, seen + {t.key});
    } else {
      assert tags[..done] == tags;
    }
  }

  lemma PrintedParses(tags: seq<Tag>)
    requires WellFormed(tags)
    ensures Parse(Print(tags)) == Ok(tags)
  {
    var lines := PrintLines(tags);
    PrintedLinesParse(tags, 0, {});
    assert lines[0..] == lines && tags[..0] == [];
    if tags != [] {
      forall i | 0 <= i < |lines| ensures '\n' !in lines[i] {
        LineParses(tags[i]);
      }
      LinesOfJoin(lines);
    }
  }

  lemma {:induction false} ParsedLinesAreWellFormed(lines: seq<string>, number: nat, seen: set<string>, tags: seq<Tag>)
    requires forall i :: 0 <= i < |lines| ==> '\n' !in lines[i]
    requires WellFormed(tags) && forall i :: 0 <= i < |tags| ==> tags[i].key in seen
    ensures ParseFrom(lines, number, seen, tags).Ok? ==> WellFormed(ParseFrom(lines, number, seen, tags).tags)
    decreases |lines|
  {
    if lines != [] {
      var line := Trim(lines[0]);
      TrimFacts(lines[0]);
      if line == "" {
        ParsedLinesAreWellFormed(lines[1..], number + 1, seen, tags);
      } else {
        CutFacts(line, '=');
        if Cut(line, '=').Some? {
          var (left, right) := Cut(line, '=').value;
          TrimFacts(left);
          TrimFacts(right);
          var t := Tag(Trim(left), Trim(right));
          if t.key != "" && t.value != "" && t.key !in seen {
            assert TagOk(t);
            ParsedLinesAreWellFormed(lines[1..], number + 1, seen + {t.key}, tags + [t]);
          }
        }
      }
    }
  }

  lemma ParsedIsWellFormed(raw: string)
    ensures Parse(raw).Ok? ==> WellFormed(Parse(raw).tags)
  {
    LinesHaveNoNewline(raw);
    ParsedLinesAreWellFormed(Lines(raw), 0, {}, []);
  }

  // ---------- what every text means ----------

  predicate IsBlankLine(line: string) {
    Trim(line) == ""
  }

  /** The line reads as this tag: split at its first '=', both sides trimmed, neither empty. */
  ghost predicate Reads(line: string, tag: Tag) {
    exists left, right ::
      && Trim(line) == left + "=" + right && '=' !in left
      && tag == Tag(Trim(left), Trim(right)) && tag.key != "" && tag.value != ""
  }

  /** `tags` are the tags of the non-blank lines, in order. */
  ghost predicate TagsOf(lines: seq<string>, tags: seq<Tag>)
    decreases |lines|
  {
    if lines == [] then tags == []
    else
      var n := |lines| - 1;
      if IsBlankLine(lines[n]) then TagsOf(lines[..n], tags)
      else tags != [] && Reads(lines[n], tags[|tags| - 1]) && TagsOf(lines[..n], tags[..|tags| - 1])
  }

  ghost predicate HasKey(tags: seq<Tag>, key: string) {
    exists i :: 0 <= i < |tags| && tags[i].key == key
  }

  ghost predicate IsNoTag(line: string) {
    forall tag :: !Reads(line, tag)
  }

  /** What a result says about the lines of a text. */
  ghost predicate Explains(lines: seq<string>, result: Parsed) {
    match result
    case Ok(tags) => TagsOf(lines, tags) && WellFormed(tags)
    case Err(BadLine(n)) =>
      && 1 <= n <= |lines| && !IsBlankLine(lines[n - 1]) && IsNoTag(lines[n - 1])
      && exists tags :: TagsOf(lines[..n - 1], tags) && WellFormed(tags)
    case Err(DuplicateKey(key)) =>
      exists n, tags, value :: && 0 <= n < |lines| && TagsOf(lines[..n], tags) && WellFormed(tags)
                               && Reads(lines[n], Tag(key, value)) && HasKey(tags, key)
  }

  /** A line reads as what is left and right of its first '=', and as nothing else. */
  lemma ReadsIsCut(line: string)
    ensures Cut(Trim(line), '=').None? ==> forall tag :: !Reads(line, tag)
    ensures Cut(Trim(line), '=').Some? ==>
              var (left, right) := Cut(Trim(line), '=').value;
              var tag := Tag(Trim(left), Trim(right));
              if tag.key == "" || tag.value == "" then forall other :: !Reads(line, other) else Reads(line, tag)
  {
    hide Trim;
    CutFacts(Trim(line), '=');
    forall left, right | Trim(line) == left + "=" + right && '=' !in left
      ensures Cut(Trim(line), '=') == Some((left, right))
    {
      CutJoined(left, '=', right);
    }
  }

  lemma {:induction false} ParseExplains(lines: seq<string>, n: nat, seen: set<string>, tags: seq<Tag>)
    requires n <= |lines| && TagsOf(lines[..n], tags) && WellFormed(tags)
    requires forall i :: 0 <= i < |lines| ==> '\n' !in lines[i]
    requires forall key :: key in seen <==> HasKey(tags, key)
    ensures Explains(lines, ParseFrom(lines[n..], n, seen, tags))
    decreases |lines| - n
  {
    hide Trim, Cut, Reads, WellFormed;
    if n == |lines| {
      assert lines[..n] == lines;
    } else {
      assert lines[n..][0] == lines[n] && lines[n..][1..] == lines[n + 1..];
      assert lines[..n + 1][..n] == lines[..n];
      ReadsIsCut(lines[n]);
      if IsBlankLine(lines[n]) {
        ParseExplains(lines, n + 1, seen, tags);
      } else if Cut(Trim(lines[n]), '=').Some? {
        var (left, right) := Cut(Trim(lines[n]), '=').value;
        var tag := Tag(Trim(left), Trim(right));
        if tag.key != "" && tag.value != "" && tag.key !in seen {
          OneMoreTag(lines[n], tag, tags);
          ParseExplains(lines, n + 1, seen + {tag.key}, tags + [tag]);
        }
      }
    }
  }

  lemma OneMoreTag(line: string, tag: Tag, tags: seq<Tag>)
    requires Reads(line, tag) && '\n' !in line && WellFormed(tags) && !HasKey(tags, tag.key)
    ensures WellFormed(tags + [tag]) && (tags + [tag])[..|tags|] == tags
    ensures forall key :: HasKey(tags + [tag], key) <==> HasKey(tags, key) || key == tag.key
  {
    hide Trim;
    var left, right :| Trim(line) == left + "=" + right && '=' !in left && tag == Tag(Trim(left), Trim(right));
    TrimFacts(line);
    TrimFacts(left);
    TrimFacts(right);
    assert forall c :: c in left || c in right ==> c in Trim(line);
    assert TagOk(tag);
    forall key | HasKey(tags, key) || key == tag.key ensures HasKey(tags + [tag], key) {
      if key == tag.key {
        assert (tags + [tag])[|tags|].key == key;
      } else {
        var i :| 0 <= i < |tags| && tags[i].key == key;
        assert (tags + [tag])[i].key == key;
      }
    }
  }

  /**
   For every text: it is accepted with exactly the tags of its non-blank lines, in order and with
   distinct keys; or the error names the first line that is no tag; or it names the first key that
   an earlier line already has.
   */
  lemma ParseIsExact(raw: string)
    ensures Explains(Lines(raw), Parse(raw))
  {
    hide Explains;
    LinesHaveNoNewline(raw);
    var lines := Lines(raw);
    assert lines[..0] == [] && lines[0..] == lines && TagsOf([], []);
    ParseExplains(lines, 0, {}, []);
  }

  /** Parsing undoes printing for exactly the well-formed lists. */
  lemma RoundTripIsExact(tags: seq<Tag>)
    ensures Parse(Print(tags)) == Ok(tags) <==> WellFormed(tags)
  {
    if WellFormed(tags) {
      PrintedParses(tags);
    }
    ParsedIsWellFormed(Print(tags));
  }

  /** Printing an accepted text and parsing it again gives the same tags. */
  lemma AcceptedTextIsStable(raw: string)
    requires Parse(raw).Ok?
    ensures Parse(Print(Parse(raw).tags)) == Parse(raw)
  {
    ParsedIsWellFormed(raw);
    PrintedParses(Parse(raw).tags);
  }
}
