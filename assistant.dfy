/** The client's offline assistant (`Assistant.tsx`): a question is answered from a fixed FAQ
    by the first key that occurs in it, lower-cased, and `send` appends the exchange to the
    conversation. */
module Chat {
  import opened Values

  /** `c.toLowerCase()` for the ASCII letters. */
  function LowerChar(c: char): char {
    if 'A' <= c <= 'Z' then (c as int - 'A' as int + 'a' as int) as char else c
  }

  /** `s.toLowerCase()`. */
  function Lower(s: string): (r: string)
    ensures |r| == |s|
    ensures forall i :: 0 <= i < |s| ==> r[i] == LowerChar(s[i])
  {
    seq(|s|, i requires 0 <= i < |s| => LowerChar(s[i]))
  }

  /** Lower-casing twice is lower-casing once. */
  lemma LowerIdempotent(s: string)
    ensures Lower(Lower(s)) == Lower(s)
  {
  }

  /** The FAQ in declaration order: key, answer. */
  const Faq: seq<(string, string)> := [
    ("what is carbon credit",
     "A carbon credit represents 1 ton of CO2e reduced or removed. TerraMRV helps estimate and verify credits for agroforestry and rice projects."),
    ("how to estimate",
     "Open the Carbon Estimator section, fill farm data (area, SOC, tree cover, rainfall), and see 5-year projections."),
    ("verification",
     "We follow standardized protocols and keep audit trails for third-party verification readiness.")
  ]

  const DefaultAnswer := "I don't have a precise answer locally. Connect an LLM API key for advanced answers."

  /** `Object.entries(FAQ).find(([k]) => key.includes(k))`, answering with the entry's answer. */
  function FirstHit(key: string, entries: seq<(string, string)>): Option<string> {
    if entries == [] then None
    else if Contains(key, entries[0].0) then Some(entries[0].1)
    else FirstHit(key, entries[1..])
  }

  /** The search answers with the first entry, in order, whose key occurs in the text, and
      finds nothing exactly when no key occurs. */
  lemma {:induction false} FirstHitIsFirst(key: string, entries: seq<(string, string)>)
    ensures FirstHit(key, entries).None? <==> forall j :: 0 <= j < |entries| ==> !Contains(key, entries[j].0)
    ensures FirstHit(key, entries).Some? ==>
      exists j :: 0 <= j < |entries| && Contains(key, entries[j].0) && FirstHit(key, entries) == Some(entries[j].1) &&
                  forall k :: 0 <= k < j ==> !Contains(key, entries[k].0)
  {
    if entries != [] && !Contains(key, entries[0].0) {
      var rest := entries[1..];
      FirstHitIsFirst(key, rest);
      assert forall j :: 0 <= j < |rest| ==> rest[j] == entries[j + 1];
      if FirstHit(key, rest).Some? {
        var j :| 0 <= j < |rest| && Contains(key, rest[j].0) && FirstHit(key, rest) == Some(rest[j].1) &&
                  forall k :: 0 <= k < j ==> !Contains(key, rest[k].0);
        assert forall k :: 0 <= k < j + 1 ==> !Contains(key, entries[k].0) by {
          forall k | 0 <= k < j + 1 ensures !Contains(key, entries[k].0) {
            if k > 0 {
              assert entries[k] == rest[k - 1];
            }
          }
        }
        assert Contains(key, entries[j + 1].0);
      } else {
        forall j | 0 <= j < |entries| ensures !Contains(key, entries[j].0) {
          if j > 0 {
            assert entries[j] == rest[j - 1];
          }
        }
      }
    }
  }

  /** `localAnswer`. */
  function LocalAnswer(q: string): string {
    match FirstHit(Lower(q), Faq)
    case Some(answer) => answer
    case None => DefaultAnswer
  }

  /** The local answer is the fixed fallback exactly when no FAQ key occurs in the
      lower-cased question; otherwise it is the answer of the first key that does, in
      declaration order. Case does not matter. */
  lemma LocalAnswerSpec(q: string)
    ensures LocalAnswer(q) == DefaultAnswer <==> forall j :: 0 <= j < |Faq| ==> !Contains(Lower(q), Faq[j].0)
    ensures LocalAnswer(q) != DefaultAnswer ==>
      exists j :: 0 <= j < |Faq| && Contains(Lower(q), Faq[j].0) && LocalAnswer(q) == Faq[j].1 &&
                  forall k :: 0 <= k < j ==> !Contains(Lower(q), Faq[k].0)
    ensures LocalAnswer(Lower(q)) == LocalAnswer(q)
  {
    FirstHitIsFirst(Lower(q), Faq);
    LowerIdempotent(q);
    assert forall j :: 0 <= j < |Faq| ==> Faq[j].1 != DefaultAnswer;
  }

  // ---------------------------------------------------------------- trimming

  /** The white space `trim` removes: tab, vertical tab, form feed, the byte-order mark,
      the space separators (U+0020, U+00A0, U+1680, U+2000 to U+200A, U+202F, U+205F,
      U+3000) and the line terminators (line feed, carriage return, U+2028, U+2029). */
  predicate IsSpace(c: char) {
    c == '\t' || c == '\U{000B}' || c == '\U{000C}' || c == '\U{FEFF}' ||
    c == ' ' || c == '\U{00A0}' || c == '\U{1680}' || ('\U{2000}' <= c <= '\U{200A}') ||
    c == '\U{202F}' || c == '\U{205F}' || c == '\U{3000}' ||
    c == '\n' || c == '\r' || c == '\U{2028}' || c == '\U{2029}'
  }

  /** `s` without its leading white space: a suffix of it, all of whose dropped characters
      are white space, and which does not start with white space. */
  function TrimStart(s: string): (r: string)
    ensures |r| <= |s| && r == s[|s| - |r|..]
    ensures r == [] || !IsSpace(r[0])
    ensures forall i :: 0 <= i < |s| - |r| ==> IsSpace(s[i])
  {
    if s != [] && IsSpace(s[0]) then TrimStart(s[1..]) else s
  }

  /** `s` without its trailing white space: a prefix of it, all of whose dropped characters
      are white space, and which does not end with white space. */
  function TrimEnd(s: string): (r: string)
    ensures |r| <= |s| && r == s[..|r|]
    ensures r == [] || !IsSpace(r[|r| - 1])
    ensures forall i :: |r| <= i < |s| ==> IsSpace(s[i])
  {
    if s != [] && IsSpace(s[|s| - 1]) then TrimEnd(s[..|s| - 1]) else s
  }

  /** `s.trim()`. */
  function Trim(s: string): string {
    TrimEnd(TrimStart(s))
  }

  /** The trimmed text has no white space at either end, and is empty exactly when the text
      is all white space. */
  lemma TrimEnds(s: string)
    ensures var t := Trim(s); t == [] || (!IsSpace(t[0]) && !IsSpace(t[|t| - 1]))
    ensures Trim(s) == [] <==> forall k :: 0 <= k < |s| ==> IsSpace(s[k])
  {
    var a := TrimStart(s);
    var t := TrimEnd(a);
    if t != [] {
      assert a != [] && !IsSpace(a[0]);
      assert t[0] == a[0];
      assert !IsSpace(s[|s| - |a|]);
    }
  }

  /** Trimming twice is trimming once. */
  lemma TrimIdempotent(s: string)
    ensures Trim(Trim(s)) == Trim(s)
  {
    var t := Trim(s);
    if t != [] {
      assert !IsSpace(t[0]) && !IsSpace(t[|t| - 1]);
      assert TrimStart(t) == t;
    }
  }

  // ---------------------------------------------------------------- conversation

  datatype Role = FromUser | FromAssistant

  datatype Message = Message(role: Role, content: string)

  /** The `Assistant` component's state: the conversation and the input box. */
  class Assistant {
    var messages: seq<Message>
    var input: string

    constructor()
      ensures messages == [] && input == ""
    {
      messages := [];
      input := "";
    }

    /** `send`: an input that is empty once trimmed is ignored; otherwise the trimmed
        question and then its local answer join the conversation, and the input is
        cleared. */
    method Send()
      modifies this
      ensures Trim(old(input)) == [] ==> messages == old(messages) && input == old(input)
      ensures Trim(old(input)) != [] ==>
        var q := Trim(old(input));
        messages == old(messages) + [Message(FromUser, q)] + [Message(FromAssistant, LocalAnswer(q))] &&
        input == ""
    {
      if Trim(input) == [] {
        return;
      }
      var q := Trim(input);
      messages := messages + [Message(FromUser, q)];
      input := "";
      var a := LocalAnswer(q);
      messages := messages + [Message(FromAssistant, a)];
    }
  }
}
