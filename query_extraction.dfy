/**
 * Query extraction: the text the chat handler retrieves for, taken from
 * the last message of the conversation (route.ts, lines 10-21).
 */
module QueryExtraction {
  import opened Wrappers
  import opened JsStrings

  /** Who sent a message. The handler never inspects it; it is passed on to the converter. */
  datatype Role = User | Assistant | System

  /**
   * One element of a message's `parts` array: its `type` tag and its `text`
   * field, `None` when the part has no text (file, tool and other parts).
   */
  datatype Part = Part(kind: string, text: Option<string>)

  /**
   * A conversation message in either accepted shape: `parts` is `None` when the
   * field is absent or null, and `content` is `None` unless it holds a string.
   */
  datatype Message = Message(role: Role, parts: Option<seq<Part>>, content: Option<string>)

  /** The `type` tag of the parts that make up the query. */
  const TextKind := "text"

  /** The separator between the texts of the text parts. */
  const PartSeparator := "\n"

  /** `parts.filter(part => part.type === 'text')`. */
  function TextParts(parts: seq<Part>): seq<Part> {
    if parts == [] then []
    else (if parts[0].kind == TextKind then [parts[0]] else []) + TextParts(parts[1..])
  }

  /**
   * `.map(part => part.text)` followed by `join`'s conversion of each element:
   * an undefined `text` is joined as the empty string.
   */
  function PartTexts(parts: seq<Part>): seq<string> {
    seq(|parts|, i requires 0 <= i < |parts| => parts[i].text.GetOr(""))
  }

  /** The query built from a `parts` array (lines 15-18). */
  function QueryFromParts(parts: seq<Part>): string {
    Join(PartTexts(TextParts(parts)), PartSeparator)
  }

  /** The query of a message: its parts when present, else a string `content`, else `''`. */
  function ExtractQuery(m: Message): string {
    match m.parts
    case Some(ps) => QueryFromParts(ps)
    case None => m.content.GetOr("")
  }

  /** The query of the conversation's last message. */
  function LastQuery(messages: seq<Message>): string
    requires |messages| > 0
  {
    ExtractQuery(messages[|messages| - 1])
  }

  /** Filtering distributes over concatenation, so it keeps the original order. */
  lemma {:induction false} TextPartsAppend(a: seq<Part>, b: seq<Part>)
    ensures TextParts(a + b) == TextParts(a) + TextParts(b)
  {
    if a != [] {
      assert (a + b)[1..] == a[1..] + b;
      TextPartsAppend(a[1..], b);
    } else {
      assert a + b == b;
    }
  }

  /**
   * The filter keeps exactly the parts whose `type` is `"text"`, each as often
   * as it occurs, and nothing else.
   */
  lemma {:induction false} TextPartsExactly(parts: seq<Part>, p: Part)
    ensures multiset(TextParts(parts))[p] == if p.kind == TextKind then multiset(parts)[p] else 0
  {
    if parts != [] {
      TextPartsExactly(parts[1..], p);
      assert parts == [parts[0]] + parts[1..];
    }
  }

  /**
   * When the last message has `parts`, the query is made of the texts of its
   * text parts in their original order: the `k`-th text part's text sits at its
   * offset in the query and a newline follows it unless it is the last.
   */
  lemma QueryFromPartsPieceAt(m: Message, k: nat)
    requires m.parts.Some? && k < |TextParts(m.parts.value)|
    ensures var texts := PartTexts(TextParts(m.parts.value));
      var o := PieceOffset(texts, PartSeparator, k);
      var q := ExtractQuery(m);
      texts[k] == TextParts(m.parts.value)[k].text.GetOr("")
      && o + |texts[k]| <= |q| && q[o..o + |texts[k]|] == texts[k]
      && (k + 1 < |texts| ==> o + |texts[k]| < |q| && q[o + |texts[k]|] == '\n')
  {
    var texts := PartTexts(TextParts(m.parts.value));
    JoinPieceAt(texts, PartSeparator, k);
    if k + 1 < |texts| {
      var q := ExtractQuery(m);
      var e := PieceOffset(texts, PartSeparator, k) + |texts[k]|;
      assert q[e..e + 1] == PartSeparator;
    }
  }

  /** Inserting a part that is not a text part, anywhere, leaves the query unchanged. */
  lemma NonTextPartIgnored(parts: seq<Part>, i: nat, p: Part)
    requires i <= |parts| && p.kind != TextKind
    ensures QueryFromParts(parts[..i] + [p] + parts[i..]) == QueryFromParts(parts)
  {
    TextPartsAppend(parts[..i] + [p], parts[i..]);
    TextPartsAppend(parts[..i], [p]);
    assert TextParts([p]) == [];
    TextPartsAppend(parts[..i], parts[i..]);
    assert parts[..i] + parts[i..] == parts;
    assert TextParts(parts[..i] + [p] + parts[i..]) == TextParts(parts);
  }

  /**
   * Appending a text part with text `t` appends a newline and `t` to the query
   * when the parts already hold a text part, and makes the query `t` otherwise.
   */
  lemma AppendTextPart(parts: seq<Part>, t: string)
    ensures QueryFromParts(parts + [Part(TextKind, Some(t))])
         == if |TextParts(parts)| > 0 then QueryFromParts(parts) + "\n" + t else t
  {
    var tp := Part(TextKind, Some(t));
    TextPartsAppend(parts, [tp]);
    assert TextParts([tp]) == [tp];
    var texts := PartTexts(TextParts(parts));
    assert PartTexts(TextParts(parts) + [tp]) == texts + [t];
    if |TextParts(parts)| > 0 {
      JoinAppend(texts, [t], PartSeparator);
    } else {
      assert texts + [t] == [t];
    }
  }

  /**
   * `parts` takes precedence whenever present: an empty `parts` gives `''`
   * and `content` is then ignored.
   */
  lemma PartsTakePrecedence(m: Message)
    requires m.parts.Some?
    ensures ExtractQuery(m) == QueryFromParts(m.parts.value)
    ensures m.parts.value == [] ==> ExtractQuery(m) == ""
    ensures (forall i :: 0 <= i < |m.parts.value| ==> m.parts.value[i].kind != TextKind) ==> ExtractQuery(m) == ""
  {
    if forall i :: 0 <= i < |m.parts.value| ==> m.parts.value[i].kind != TextKind {
      NoTextParts(m.parts.value);
    }
  }

  lemma {:induction false} NoTextParts(parts: seq<Part>)
    requires forall i :: 0 <= i < |parts| ==> parts[i].kind != TextKind
    ensures TextParts(parts) == []
  {
    if parts != [] {
      assert parts[0].kind != TextKind;
      NoTextParts(parts[1..]);
    }
  }

  /** Without `parts`, a string `content` is the query verbatim, and anything else gives `''`. */
  lemma ContentFallback(m: Message)
    requires m.parts.None?
    ensures m.content.Some? ==> ExtractQuery(m) == m.content.value
    ensures m.content.None? ==> ExtractQuery(m) == ""
  {
  }

  /**
   * The two message shapes agree: one text part holding `t`, and a plain string
   * `content` equal to `t`, both give the query `t`.
   */
  lemma ShapesAgree(role: Role, t: string, other: Option<string>)
    ensures ExtractQuery(Message(role, Some([Part(TextKind, Some(t))]), other)) == t
    ensures ExtractQuery(Message(role, None, Some(t))) == t
  {
    var ps := [Part(TextKind, Some(t))];
    assert ps[1..] == [];
    assert TextParts(ps) == ps;
    assert PartTexts(ps) == [t];
  }
}
