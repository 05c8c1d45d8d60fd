/** The reader itself: one text, one position that only moves forward, loops that stop at the
    first problem. Each method reads exactly what the production of its name reads. */
module SubsetParser {
  import opened Options
  import opened SubsetToml

  datatype Outcome<T> = Good(value: T) | Failure(why: Problem)

  // `r` and the text left over are what the production says.
  ghost predicate Agrees<T>(r: Outcome<T>, p: Parsed<T>, left: string) {
    match p
    case Ok(v, rest) => r == Good(v) && left == rest
    case Bad(why) => r == Failure(why)
  }

  // A production that goes on after `done` has been read.
  function After<T>(done: seq<T>, p: Parsed<seq<T>>): Parsed<seq<T>> {
    if p.Ok? then Ok(done + p.value, p.rest) else p
  }

  lemma AfterNothing<T>(p: Parsed<seq<T>>)
    ensures After([], p) == p
  {
    if p.Ok? {
      assert [] + p.value == p.value;
    }
  }

  lemma AfterOne<T>(done: seq<T>, v: T, p: Parsed<seq<T>>)
    ensures After(done, if p.Ok? then Ok([v] + p.value, p.rest) else p) == After(done + [v], p)
  {
    if p.Ok? {
      assert done + ([v] + p.value) == (done + [v]) + p.value;
    }
  }

  class Parser {
    const text: string
    var pos: nat

    ghost predicate Valid()
      reads this
    {
      pos <= |text|
    }

    ghost function Rest(): string
      reads this
      requires Valid()
    {
      text[pos..]
    }

    constructor (text: string)
      ensures Valid() && Rest() == text && this.text == text
    {
      this.text := text;
      pos := 0;
    }

    // The next character, or none at the end of the text.
    function Peek(): (c: string)
      requires Valid()
      reads this
      ensures c == if Rest() == "" then "" else [Rest()[0]]
    {
      if pos < |text| then [text[pos]] else ""
    }

    method Advance(k: nat)
      requires Valid() && k <= |Rest()|
      modifies this`pos
      ensures Valid() && Rest() == old(Rest())[k..] && pos == old(pos) + k
    {
      pos := pos + k;
    }

    predicate StartsHere(prefix: string)
      requires Valid()
      reads this
      ensures StartsHere(prefix) == Starts(Rest(), prefix)
    {
      pos + |prefix| <= |text| && text[pos..pos + |prefix|] == prefix
    }

    method SkipBlanks(newlines: bool)
      requires Valid()
      modifies this`pos
      ensures Valid() && Rest() == Skip(old(Rest()), newlines)
    {
      while pos < |text|
        invariant Valid() && Skip(Rest(), newlines) == Skip(old(Rest()), newlines)
        decreases |text| - pos
      {
        var c := text[pos];
        if c == '#' {
          ghost var comment := Rest()[1..];
          Advance(1);
          while pos < |text| && text[pos] != '\n'
            invariant Valid() && pos > old(pos) && SkipComment(Rest()) == SkipComment(comment)
            invariant |Rest()| <= |comment|
          {
            Advance(1);
          }
          assert Rest() == SkipComment(comment);
        } else if c in " \t\r" || (newlines && c == '\n') {
          Advance(1);
        } else {
          break;
        }
      }
    }

    method ToEndOfLine() returns (r: Outcome<()>)
      requires Valid()
      modifies this`pos
      ensures Valid() && Agrees(r, EndOfLine(old(Rest())), Rest())
    {
      SkipBlanks(false);
      if pos < |text| && text[pos] != '\n' {
        return Failure(TextAfterValue);
      }
      return Good(());
    }

    method ReadKey() returns (r: Outcome<string>)
      requires Valid()
      modifies this`pos
      ensures Valid() && pos >= old(pos) && Agrees(r, KeyPart(old(Rest())), Rest())
    {
      if pos < |text| && (text[pos] == '"' || text[pos] == '\'') {
        r := ReadString();
        return;
      }
      var end := pos;
      while end < |text| && IsBare(text[end])
        invariant pos <= end <= |text|
        invariant BareRun(Rest()) == (end - pos) + BareRun(text[end..])
      {
        assert text[end..][1..] == text[end + 1..];
        end := end + 1;
      }
      if end == pos {
        return Failure(ExpectedKey);
      }
      r := Good(text[pos..end]);
      assert Rest()[..end - pos] == text[pos..end];
      Advance(end - pos);
    }

    method ReadString() returns (r: Outcome<string>)
      requires Valid() && Quoted(Rest())
      modifies this`pos
      ensures Valid() && pos >= old(pos) && Agrees(r, ParseString(old(Rest())), Rest())
    {
      var quote := text[pos];
      if StartsHere([quote, quote, quote]) {
        return Failure(MultiLineString);
      }
      Advance(1);
      ghost var all := Characters(quote, Rest());
      var out := "";
      AfterNothing(all);
      while true
        invariant Valid() && pos >= old(pos) && After(out, Characters(quote, Rest())) == all
        decreases |text| - pos
      {
        if pos >= |text| || text[pos] == '\n' {
          return Failure(Unterminated);
        }
        var c := text[pos];
        if c == quote {
          Advance(1);
          assert out + "" == out;
          return Good(out);
        }
        if quote == '"' && c == '\\' {
          ghost var e := Escape(Rest()[1..]);
          Advance(1);
          var ch := ReadEscape();
          if ch.Failure? {
            return Failure(ch.why);
          }
          AfterOne(out, ch.value, Characters(quote, Rest()));
          out := out + [ch.value];
          continue;
        }
        if c < ' ' && c != '\t' {
          return Failure(ControlCharacter);
        }
        AfterOne(out, c, Characters(quote, Rest()[1..]));
        out := out + [c];
        Advance(1);
      }
    }

    method ReadEscape() returns (r: Outcome<char>)
      requires Valid()
      modifies this`pos
      ensures Valid() && pos >= old(pos) && Agrees(r, Escape(old(Rest())), Rest())
    {
      var esc := Peek();
      if esc == "" {
        return Failure(BadEscape);
      }
      var named := Named(esc[0]);
      if named.Some? {
        Advance(1);
        return Good(named.value);
      }
      var width := if esc[0] == 'u' then 4 else if esc[0] == 'U' then 8 else 0;
      if width == 0 || pos + 1 + width > |text| {
        return Failure(BadEscape);
      }
      var digits := text[pos + 1..pos + 1 + width];
      assert Rest()[1..][..width] == digits;
      var n := HexValue(digits);
      if n.None? || !(0 <= n.value < 0xD800 || 0xE000 <= n.value < 0x11_0000) {
        return Failure(BadEscape);
      }
      assert Rest()[1..][width..] == Rest()[1 + width..];
      Advance(1 + width);
      return Good(n.value as char);
    }

    method ReadInt() returns (r: Outcome<Value>)
      requires Valid()
      modifies this`pos
      ensures Valid() && pos >= old(pos) && Agrees(r, ParseInt(old(Rest())), Rest())
    {
      var n := IntRun(text[pos..]);
      if n == 0 || (pos + n < |text| && text[pos + n] in ".eE:-") {
        return Failure(UnsupportedValue);
      }
      var digits := text[pos..pos + n];
      assert Rest()[..n] == digits;
      Advance(n);
      return Good(Int(if digits[0] == '-' then -Decimal(digits) else Decimal(digits)));
    }

    method ReadValue() returns (r: Outcome<Value>)
      requires Valid()
      modifies this`pos
      ensures Valid() && pos >= old(pos) && Agrees(r, ParseValue(old(Rest())), Rest())
      decreases |text| - pos, 0
    {
      var c := Peek();
      if c == "\"" || c == "'" {
        var q := ReadString();
        return if q.Good? then Good(Str(q.value)) else Failure(q.why);
      } else if c == "[" {
        Advance(1);
        var items := ReadItems();
        return if items.Good? then Good(Arr(items.value)) else Failure(items.why);
      } else if c == "{" {
        Advance(1);
        SkipBlanks(false);
        c := Peek();
        if c == "}" {
          Advance(1);
          return Good(Table(map[]));
        }
        var entries := ReadEntries();
        return if entries.Good? then Good(Table(entries.value)) else Failure(entries.why);
      } else if StartsHere("true") {
        Advance(4);
        return Good(Bool(true));
      } else if StartsHere("false") {
        Advance(5);
        return Good(Bool(false));
      }
      r := ReadInt();
    }

    method ReadItems() returns (r: Outcome<seq<Value>>)
      requires Valid()
      modifies this`pos
      ensures Valid() && pos >= old(pos) && Agrees(r, ParseItems(old(Rest())), Rest())
      decreases |text| - pos, 1
    {
      ghost var all := ParseItems(Rest());
      var items: seq<Value> := [];
      AfterNothing(all);
      while true
        invariant Valid() && pos >= old(pos) && After(items, ParseItems(Rest())) == all
        decreases |text| - pos
      {
        SkipBlanks(true);
        var c := Peek();
        if c == "]" {
          Advance(1);
          assert items + [] == items;
          return Good(items);
        }
        var v := ReadValue();
        if v.Failure? {
          return Failure(v.why);
        }
        SkipBlanks(true);
        c := Peek();
        if c == "," {
          Advance(1);
        } else if c != "]" {
          return Failure(ExpectedComma);
        }
        AfterOne(items, v.value, ParseItems(Rest()));
        items := items + [v.value];
      }
    }

    method ReadBinding(table: Entries) returns (r: Outcome<Binding>)
      requires Valid()
      modifies this`pos
      ensures Valid() && pos >= old(pos) && Agrees(r, ParseBinding(old(Rest()), table), Rest())
      decreases |text| - pos, 1
    {
      var name := ReadKey();
      if name.Failure? {
        return Failure(name.why);
      }
      SkipBlanks(false);
      var c := Peek();
      if c != "=" {
        return Failure(ExpectedEquals);
      }
      Advance(1);
      SkipBlanks(false);
      if name.value in table {
        return Failure(DuplicateKey);
      }
      var v := ReadValue();
      return if v.Good? then Good(Binding(name.value, v.value)) else Failure(v.why);
    }

    method ReadEntries() returns (r: Outcome<Entries>)
      requires Valid()
      modifies this`pos
      ensures Valid() && pos >= old(pos) && Agrees(r, ParseEntries(old(Rest()), map[]), Rest())
      decreases |text| - pos, 2
    {
      ghost var all := ParseEntries(Rest(), map[]);
      var table: Entries := map[];
      while true
        invariant Valid() && pos >= old(pos) && ParseEntries(Rest(), table) == all
        decreases |text| - pos
      {
        SkipBlanks(false);
        var b := ReadBinding(table);
        if b.Failure? {
          return Failure(b.why);
        }
        table := table[b.value.name := b.value.v];
        SkipBlanks(false);
        var c := Peek();
        if c == "," {
          Advance(1);
        } else if c == "}" {
          Advance(1);
          return Good(table);
        } else {
          return Failure(ExpectedBrace);
        }
      }
    }

    method ReadHeader(st: State) returns (r: Outcome<State>)
      requires Valid() && At(Rest(), '[')
      modifies this`pos
      ensures Valid() && Agrees(r, Header(old(Rest()), st), Rest())
    {
      var ofTables := StartsHere("[[");
      Advance(if ofTables then 2 else 1);
      ghost var all := HeaderParts(Rest());
      var parts: seq<string> := [];
      AfterNothing(all);
      while true
        invariant Valid() && After(parts, HeaderParts(Rest())) == all
        decreases |text| - pos
      {
        SkipBlanks(false);
        var part := ReadKey();
        if part.Failure? {
          return Failure(part.why);
        }
        SkipBlanks(false);
        var c := Peek();
        if c == "." {
          Advance(1);
          AfterOne(parts, part.value, HeaderParts(Rest()));
          parts := parts + [part.value];
        } else {
          parts := parts + [part.value];
          break;
        }
      }
      assert all == Ok(parts, Rest());
      var closing := if ofTables then "]]" else "]";
      if !StartsHere(closing) {
        return Failure(ExpectedClosing);
      }
      Advance(|closing|);
      var e := ToEndOfLine();
      if e.Failure? {
        return Failure(e.why);
      }
      var o := Open(st.root, parts, ofTables);
      return if o.Refused? then Failure(o.why) else Good(State(o.t, parts));
    }

    method ReadAssignment(st: State) returns (r: Outcome<State>)
      requires Valid() && Sane(st)
      modifies this`pos
      ensures Valid() && Agrees(r, Assignment(old(Rest()), st), Rest())
    {
      var b := ReadBinding(TableAt(st.root, st.path).value);
      if b.Failure? {
        return Failure(b.why);
      }
      var e := ToEndOfLine();
      return if e.Failure? then Failure(e.why)
             else Good(State(Put(st.root, st.path, b.value.name, b.value.v), st.path));
    }

    method ReadDocument() returns (r: Loaded)
      requires Valid()
      modifies this`pos
      ensures r == Load(old(Rest()), State(map[], []))
    {
      var st := State(map[], []);
      while true
        invariant Valid() && Sane(st)
        invariant Load(Rest(), st) == Load(old(Rest()), State(map[], []))
        decreases |text| - pos
      {
        SkipBlanks(true);
        if pos >= |text| {
          return Loaded(st.root);
        }
        var line: Outcome<State>;
        if text[pos] == '[' {
          line := ReadHeader(st);
        } else {
          line := ReadAssignment(st);
        }
        if line.Failure? {
          return Failed(line.why);
        }
        st := line.value;
      }
    }
  }

  method LoadsSubset(text: string) returns (r: Loaded)
    ensures r == Loads(text)
  {
    var parser := new Parser(text);
    r := parser.ReadDocument();
  }
}
