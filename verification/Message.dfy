/** src/message.c: KATCP messages and their text form. */
module Messages {
  import opened Text

  datatype Msg = Msg(kind: char, words: seq<string>)

  function Request(words: seq<string>): Msg {
    Msg('?', words)
  }

  function Join(words: seq<string>, separator: char): string {
    if words == [] then [] else if |words| == 1 then words[0] else words[0] + [separator] + Join(words[1..], separator)
  }

  /** The text of a message; None where message_compose returns NULL. */
  function Compose(m: Msg): Option<string> {
    if m.words == [] then None else Some([m.kind] + Join(m.words, ' '))
  }

  /** The fields of s around every separator, empty ones included. */
  function Fields(s: string, separator: char): (fields: seq<string>)
    ensures fields != []
  {
    if s == [] then [""]
    else if s[0] == separator then [""] + Fields(s[1..], separator)
    else
      var rest := Fields(s[1..], separator);
      [[s[0]] + rest[0]] + rest[1..]
  }

  /** The words of a list after each is cut at its own separators. */
  function Pieces(words: seq<string>, separator: char): seq<string> {
    if words == [] then [] else Fields(words[0], separator) + Pieces(words[1..], separator)
  }

  predicate Plain(m: Msg) {
    forall i :: 0 <= i < |m.words| ==> ' ' !in m.words[i]
  }

  lemma {:induction false} FieldsOfConcat(a: string, b: string, separator: char)
    ensures Fields(a + [separator] + b, separator) == Fields(a, separator) + Fields(b, separator)
  {
    var whole := a + [separator] + b;
    if a == [] {
      assert whole[1..] == b;
    } else {
      var tail := a[1..] + [separator] + b;
      assert whole[1..] == tail && whole[0] == a[0];
      FieldsOfConcat(a[1..], b, separator);
      FirstFieldGrows(a[0], Fields(a[1..], separator), Fields(b, separator));
      assert Fields(tail, separator) == Fields(a[1..], separator) + Fields(b, separator);
      if a[0] == separator {
        assert Fields(whole, separator) == [""] + Fields(tail, separator);
      }
    }
  }

  lemma FirstFieldGrows(c: char, front: seq<string>, back: seq<string>)
    requires front != []
    ensures var all := front + back; [[c] + all[0]] + all[1..] == ([[c] + front[0]] + front[1..]) + back
    ensures [""] + (front + back) == ([""] + front) + back
  {
  }

  lemma {:induction false} FieldsOfJoin(words: seq<string>, separator: char)
    requires words != []
    ensures Fields(Join(words, separator), separator) == Pieces(words, separator)
  {
    if |words| > 1 {
      FieldsOfConcat(words[0], Join(words[1..], separator), separator);
      FieldsOfJoin(words[1..], separator);
    } else {
      assert Pieces(words[1..], separator) == [];
    }
  }

  lemma {:induction false} JoinOfFields(s: string, separator: char)
    ensures Join(Fields(s, separator), separator) == s
  {
    if s == [] {
    } else {
      JoinOfFields(s[1..], separator);
      var rest := Fields(s[1..], separator);
      var all := Fields(s, separator);
      if s[0] == separator {
        assert all[1..] == rest;
      } else if |rest| > 1 {
        assert all[1..] == rest[1..];
      }
    }
  }

  lemma {:induction false} FieldsOfPlain(s: string, separator: char)
    requires separator !in s
    ensures Fields(s, separator) == [s]
  {
    if s == [] {
    } else {
      FieldsOfPlain(s[1..], separator);
      assert s == [s[0]] + s[1..];
    }
  }

  lemma {:induction false} PiecesOfPlain(words: seq<string>, separator: char)
    requires forall i :: 0 <= i < |words| ==> separator !in words[i]
    ensures Pieces(words, separator) == words
  {
    if words == [] {
    } else {
      FieldsOfPlain(words[0], separator);
      PiecesOfPlain(words[1..], separator);
    }
  }

  /** Exactly which messages share a text: same type, and same words once cut at spaces. */
  lemma ComposeEqual(a: Msg, b: Msg)
    requires a.words != [] && b.words != []
    ensures Compose(a) == Compose(b) <==> a.kind == b.kind && Pieces(a.words, ' ') == Pieces(b.words, ' ')
  {
    var ja, jb := Join(a.words, ' '), Join(b.words, ' ');
    FieldsOfJoin(a.words, ' ');
    FieldsOfJoin(b.words, ' ');
    JoinOfFields(ja, ' ');
    JoinOfFields(jb, ' ');
    assert ([a.kind] + ja)[1..] == ja && ([b.kind] + jb)[1..] == jb;
    assert ([a.kind] + ja)[0] == a.kind && ([b.kind] + jb)[0] == b.kind;
  }

  /** For words without spaces the text determines the message. */
  lemma ComposeInjective(a: Msg, b: Msg)
    requires a.words != [] && b.words != [] && Plain(a) && Plain(b)
    ensures Compose(a) == Compose(b) <==> a == b
  {
    ComposeEqual(a, b);
    PiecesOfPlain(a.words, ' ');
    PiecesOfPlain(b.words, ' ');
  }

  lemma ComposeCollides()
    ensures var a, b := Request(["a b"]), Request(["a", "b"]); a != b && Compose(a) == Compose(b)
  {
    assert Join(["a", "b"], ' ') == "a b";
  }

  lemma PairText(name: string, word: string)
    ensures Compose(Request([name, word])) == Some("?" + name + " " + word)
  {
    assert [name, word][1..] == [word] && Join([word], ' ') == word;
    assert Join([name, word], ' ') == name + [' '] + word == name + " " + word;
    assert ['?'] + (name + " " + word) == "?" + name + " " + word;
  }

  /** The sum over the words of (length + 1): the index at which the terminator is written. */
  function TextLength(words: seq<string>): nat {
    if words == [] then 0 else TextLength(words[..|words| - 1]) + |words[|words| - 1]| + 1
  }

  lemma {:induction false} JoinAppend(words: seq<string>, word: string, separator: char)
    requires words != []
    ensures Join(words + [word], separator) == Join(words, separator) + [separator] + word
  {
    var all := words + [word];
    if |words| == 1 {
      assert all[1..] == [word];
    } else {
      JoinAppend(words[1..], word, separator);
      assert all[1..] == words[1..] + [word];
    }
  }

  class Message {
    const kind: char
    var words: seq<string>

    function Value(): Msg
      reads this
    {
      Msg(kind, words)
    }

    constructor (kind: char)
      ensures Value() == Msg(kind, [])
    {
      this.kind := kind;
      words := [];
    }

    method AddWord(word: string) returns (count: nat)
      modifies this
      ensures Value() == old(Value()).(words := old(words) + [word])
      ensures count == |words|
    {
      words := words + [word];
      count := |words|;
    }

    method SeeWord(i: nat) returns (word: Option<string>)
      ensures word == if i < |words| then Some(words[i]) else None
    {
      if i >= |words| {
        return None;
      }
      word := Some(words[i]);
    }

    /** The length is summed first, the text built word by word, and the terminator then written at
        length - 2: it cuts nothing off. */
    method ComposeText() returns (text: Option<string>)
      ensures text == Compose(Value())
      ensures text.Some? ==> |text.value| == TextLength(words)
    {
      if |words| == 0 {
        return None;
      }
      var length := 1;
      var i := 0;
      while i < |words|
        invariant 0 <= i <= |words| && length == 1 + TextLength(words[..i])
      {
        assert words[..i + 1][..i] == words[..i];
        length := length + |words[i]| + 1;
        i := i + 1;
      }
      assert words[..i] == words;
      length := length + 1;
      var composed := [kind] + words[0];
      i := 1;
      assert words[..1] == [words[0]];
      while i < |words|
        invariant 1 <= i <= |words|
        invariant composed == [kind] + Join(words[..i], ' ')
        invariant |composed| == TextLength(words[..i])
      {
        JoinAppend(words[..i], words[i], ' ');
        assert words[..i + 1] == words[..i] + [words[i]];
        composed := composed + " ";
        composed := composed + words[i];
        i := i + 1;
      }
      assert words[..i] == words;
      assert composed[..length - 2] == composed;
      text := Some(composed[..length - 2]);
    }
  }

  /** A request built one word at a time. */
  method NewRequest(words: seq<string>) returns (m: Message)
    ensures fresh(m) && m.Value() == Request(words)
  {
    m := new Message('?');
    for i := 0 to |words|
      invariant fresh(m) && m.Value() == Request(words[..i])
    {
      var _ := m.AddWord(words[i]);
    }
    assert words[..|words|] == words;
  }
}
