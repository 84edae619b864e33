/** The regular expression that selects cache records: `^(a|b|c)$` with every identifier escaped. */
module FilterText {
  import opened Wrappers
  import opened References

  predicate IdChar(c: char) {
    Alnum(c) || c == '_' || c == '-'
  }

  predicate CacheId(text: string) {
    1 <= |text| <= 256 && forall k :: 0 <= k < |text| ==> IdChar(text[k])
  }

  /** Of the characters an identifier may have, only the dash is escaped. */
  function Escape(id: string): (text: string) {
    if id == "" then "" else (if id[0] == '-' then ['\\', '-'] else [id[0]]) + Escape(id[1..])
  }

  function Alternatives(ids: seq<string>): (text: string)
    requires ids != []
  {
    if |ids| == 1 then Escape(ids[0]) else Escape(ids[0]) + (['|'] + Alternatives(ids[1..]))
  }

  function Pattern(ids: seq<string>): (text: string)
    requires ids != []
  {
    "^(" + (Alternatives(ids) + ")$")
  }

  /** Characters with a meaning of their own in a regular expression. */
  predicate Special(c: char) {
    c == '.' || c == '^' || c == '$' || c == '*' || c == '+' || c == '?' || c == '{' || c == '}' ||
    c == '[' || c == ']' || c == '(' || c == ')'
  }

  function Prepend(c: char, alternatives: Option<seq<string>>): (r: Option<seq<string>>) {
    if alternatives.Some? && alternatives.value != [] then
      Some([[c] + alternatives.value[0]] + alternatives.value[1..])
    else None
  }

  /** The strings that a group body of alternatives stands for, if it is one of plain and escaped characters. */
  function Read(body: string): (r: Option<seq<string>>)
    ensures r.Some? ==> r.value != []
  {
    if body == "" then Some([""])
    else if body[0] == '|' then (if Read(body[1..]).Some? then Some([""] + Read(body[1..]).value) else None)
    else if body[0] == '\\' then (if |body| == 1 then None else Prepend(body[1], Read(body[2..])))
    else if Special(body[0]) then None
    else Prepend(body[0], Read(body[1..]))
  }

  /** The strings an anchored pattern matches. */
  function Denotes(pattern: string): (r: Option<seq<string>>) {
    var n := |pattern|;
    if n >= 4 && pattern[..2] == "^(" && pattern[n - 2..] == ")$" then Read(pattern[2..n - 2]) else None
  }

  predicate Matches(pattern: string, text: string) {
    Denotes(pattern).Some? && text in Denotes(pattern).value
  }

  lemma PrependTo(c: char, tail: string, alternatives: seq<string>)
    requires alternatives != []
    ensures Prepend(c, Some([tail + alternatives[0]] + alternatives[1..])) ==
            Some([[c] + tail + alternatives[0]] + alternatives[1..])
  {
    var given := [tail + alternatives[0]] + alternatives[1..];
    assert given[1..] == alternatives[1..];
    assert [c] + (tail + alternatives[0]) == [c] + tail + alternatives[0];
  }

  lemma {:induction false} ReadEscaped(id: string, rest: string)
    requires forall k :: 0 <= k < |id| ==> IdChar(id[k])
    requires Read(rest).Some?
    ensures Read(Escape(id) + rest) == Some([id + Read(rest).value[0]] + Read(rest).value[1..])
  {
    var alternatives := Read(rest).value;
    if id == "" {
      assert Escape(id) + rest == rest;
      assert id + alternatives[0] == alternatives[0];
      assert [alternatives[0]] + alternatives[1..] == alternatives;
    } else {
      var tail, body := id[1..], Escape(id) + rest;
      ReadEscaped(tail, rest);
      PrependTo(id[0], tail, alternatives);
      assert [id[0]] + tail == id;
      if id[0] == '-' {
        assert body[2..] == Escape(tail) + rest;
        assert body[0] == '\\' && body[1] == '-';
      } else {
        assert body[1..] == Escape(tail) + rest;
        assert body[0] == id[0] && IdChar(id[0]);
      }
    }
  }

  predicate CacheIds(ids: seq<string>) {
    forall k :: 0 <= k < |ids| ==> CacheId(ids[k])
  }

  lemma {:induction false} ReadAlternatives(ids: seq<string>)
    requires ids != [] && CacheIds(ids)
    ensures Read(Alternatives(ids)) == Some(ids)
  {
    if |ids| == 1 {
      assert Escape(ids[0]) + "" == Escape(ids[0]);
      ReadEscaped(ids[0], "");
      assert Read("") == Some([""]);
      assert ids[0] + "" == ids[0];
      assert [ids[0]] + [""][1..] == ids;
    } else {
      ReadAlternatives(ids[1..]);
      var rest := ['|'] + Alternatives(ids[1..]);
      assert rest[1..] == Alternatives(ids[1..]);
      assert Read(rest) == Some([""] + ids[1..]);
      ReadEscaped(ids[0], rest);
      assert ids[0] + "" == ids[0];
      assert ([""] + ids[1..])[1..] == ids[1..];
      assert [ids[0]] + ids[1..] == ids;
    }
  }

  /** The pattern for some identifiers matches a text exactly when it is one of them. */
  lemma PatternMatches(ids: seq<string>)
    requires ids != [] && CacheIds(ids)
    ensures Denotes(Pattern(ids)) == Some(ids)
    ensures forall text :: Matches(Pattern(ids), text) <==> text in ids
  {
    var body := Alternatives(ids);
    var pattern := Pattern(ids);
    ReadAlternatives(ids);
    assert pattern == "^(" + body + ")$";
    assert pattern[..2] == "^(";
    assert pattern[2..|pattern| - 2] == body;
    assert pattern[|pattern| - 2..] == ")$";
  }
}
