/** What the recommender makes of the language model's replies: the yes/no
    answer to "is this message unrelated to food?", and the JSON request
    extracted from a reply that may wrap it in a Markdown code fence. The
    model's replies and the JSON decoder are inputs. */
module UserInput {
  import opened Wrappers
  import opened Text

  const Fence: string := "```"
  const JsonTag: string := "json"

  /** `detect_non_food_intent`: the reply, stripped and lower-cased, starts
      with "yes"; a failed call (`None`) counts as food-related. */
  function DetectNonFoodIntent(reply: Option<string>): (r: bool)
    ensures reply.None? ==> !r
    ensures r ==> |reply.value| >= 3
  {
    reply.Some? && StartsWith(Lower(Strip(reply.value)), "yes")
  }

  /** `re.sub(r"```(?:json)?(.*?)```", r"\1", s, flags=re.DOTALL)`: every
      fenced block, scanned from the left, is replaced by its body, with a
      leading "json" tag dropped. */
  function Unfence(s: string): (r: string)
    ensures |r| <= |s|
    decreases |s|
  {
    if |s| < 3 then s
    else if s[..3] != Fence then [s[0]] + Unfence(s[1..])
    else
      var body := if StartsWith(s[3..], JsonTag) then 7 else 3;
      var close := FindFrom(s, Fence, body);
      if close == -1 then [s[0]] + Unfence(s[1..])
      else s[body..close] + Unfence(s[close + 3..])
  }

  /** The value of the "preferences" key as decoded: a list of texts, one
      text, or missing, null or otherwise empty. */
  datatype PrefsValue = PrefList(items: seq<string>) | PrefText(text: string) | PrefNone

  /** A decoded JSON object, with the keys the recommender reads. */
  datatype Decoded = Decoded(location: Option<string>, category: Option<string>, preferences: PrefsValue)

  /** A request as `parse_user_input` returns it: preferences always a list. */
  datatype Request = Request(location: Option<string>, category: Option<string>, preferences: seq<string>)

  /** The preferences as a list: a single text becomes a one-element list,
      an empty value the empty list. */
  function PreferenceList(v: PrefsValue): (r: seq<string>)
    ensures v.PrefText? ==> r == [v.text]
    ensures v.PrefNone? ==> r == []
  {
    match v
    case PrefList(items) => items
    case PrefText(t) => [t]
    case PrefNone => []
  }

  /** The reply as searched for braces: stripped, unfenced, stripped again. */
  function Cleaned(reply: string): string {
    Strip(Unfence(Strip(reply)))
  }

  /** The text handed to the JSON decoder: from the first '{' to the last
      '}'; none when either is missing or they are out of order (the
      decoder then sees an empty text and fails). */
  function BlockOf(raw: string): (r: Option<string>)
    ensures r.Some? ==> |r.value| >= 2 && r.value[0] == '{' && r.value[|r.value| - 1] == '}'
    ensures r.Some? ==> Contains(raw, r.value)
    ensures r.None? <==> '{' !in raw || '}' !in raw || RFind(raw, '}') < Find(raw, '{')
    ensures r.Some? ==> exists i :: OccursAt(raw, r.value, i) && '{' !in raw[..i] && '}' !in raw[i + |r.value|..]
  {
    var start := Find(raw, '{');
    var end := RFind(raw, '}');
    if start == -1 || end == -1 || end < start then None
    else
      BlockAt(raw, start, end);
      BlockOutside(raw, start, end);
      Some(raw[start..end + 1])
  }

  /** The slice from a '{' to a '}' at or after it starts with one, ends
      with the other and sits in the text where the '{' is. */
  lemma BlockAt(raw: string, start: int, end: int)
    requires 0 <= start <= end < |raw| && raw[start] == '{' && raw[end] == '}'
    ensures var block := raw[start..end + 1];
            && |block| >= 2 && block[0] == '{' && block[|block| - 1] == '}'
            && OccursAt(raw, block, start) && Contains(raw, block)
  {
    assert OccursAt(raw, raw[start..end + 1], start);
  }

  /** No '{' comes before the first one and no '}' after the last one. */
  lemma BlockOutside(raw: string, start: int, end: int)
    requires start == Find(raw, '{') && end == RFind(raw, '}')
    requires 0 <= start <= end
    ensures '{' !in raw[..start] && '}' !in raw[start + |raw[start..end + 1]|..]
  {
    assert raw[start + |raw[start..end + 1]|..] == raw[end + 1..];
  }

  function JsonBlock(reply: string): Option<string> {
    BlockOf(Cleaned(reply))
  }

  /** `parse_user_input`: the model's reply (`None` when the call failed)
      reduced to its JSON block and decoded by `decode` (`None` when the
      text is not a JSON object). */
  function ParseUserInput(reply: Option<string>, decode: string -> Option<Decoded>): (r: Option<Request>)
    ensures reply.None? ==> r.None?
    ensures r.Some? <==>
              reply.Some? && JsonBlock(reply.value).Some? && decode(JsonBlock(reply.value).value).Some?
    ensures r.Some? ==>
              var d := decode(JsonBlock(reply.value).value).value;
              r.value == Request(d.location, d.category, PreferenceList(d.preferences))
  {
    if reply.None? then None
    else match JsonBlock(reply.value)
      case None => None
      case Some(block) =>
        match decode(block)
        case None => None
        case Some(d) => Some(Request(d.location, d.category, PreferenceList(d.preferences)))
  }

  // ----------------------------------------------------------- properties

  /** A text without a fence is left as it is. */
  lemma {:induction false} UnfenceWithoutFence(s: string)
    requires '`' !in s
    ensures Unfence(s) == s
    decreases |s|
  {
    if |s| >= 3 {
      assert s[..3] != Fence by { assert s[0] != '`'; }
      UnfenceWithoutFence(s[1..]);
    }
  }

  /** A reply that is one fenced block tagged "json" yields its body. */
  lemma FencedBodyIsKept(body: string)
    requires '`' !in body
    ensures Unfence(Fence + JsonTag + body + Fence) == body
  {
    var s := Fence + JsonTag + body + Fence;
    var n := |body|;
    forall k | 0 <= k < 7 ensures s[k] == (Fence + JsonTag)[k] {
    }
    assert s[..3] == Fence;
    assert s[3..][..4] == JsonTag;
    assert OccursAt(s, Fence, 7 + n) by { assert s[7 + n..10 + n] == Fence; }
    forall k | 7 <= k < 7 + n ensures !OccursAt(s, Fence, k) {
      assert s[k] == body[k - 7];
    }
    var close := FindFrom(s, Fence, 7);
    assert s[7..close] == body;
    assert s[close + 3..] == [];
  }

  /** Without a '{' or without a '}' in the reply nothing is decoded, and
      the request is none, whatever the decoder does. */
  lemma NoBracesNoRequest(reply: string, decode: string -> Option<Decoded>)
    requires '{' !in reply || '}' !in reply
    ensures ParseUserInput(Some(reply), decode).None?
  {
    var raw := Cleaned(reply);
    UnfenceKeepsChars(Strip(reply));
    StripKeepsChars(reply);
    StripKeepsChars(Unfence(Strip(reply)));
    assert forall c :: c in raw ==> c in reply;
  }

  /** Unfencing only ever drops characters: what is left was there. */
  lemma {:induction false} UnfenceKeepsChars(s: string)
    ensures forall c :: c in Unfence(s) ==> c in s
    decreases |s|
  {
    if |s| >= 3 {
      if s[..3] != Fence {
        UnfenceKeepsChars(s[1..]);
        assert forall c :: c in s[1..] ==> c in s;
      } else {
        var body := if StartsWith(s[3..], JsonTag) then 7 else 3;
        var close := FindFrom(s, Fence, body);
        if close == -1 {
          UnfenceKeepsChars(s[1..]);
          assert forall c :: c in s[1..] ==> c in s;
        } else {
          UnfenceKeepsChars(s[close + 3..]);
          assert forall c :: c in s[body..close] ==> c in s;
          assert forall c :: c in s[close + 3..] ==> c in s;
        }
      }
    }
  }

  /** A reply whose model answer begins with "yes", in any case and after
      any spacing, marks the message as unrelated to food. */
  lemma YesMeansNonFood(reply: string)
    requires |Strip(reply)| >= 3 && Lower(Strip(reply))[..3] == "yes"
    ensures DetectNonFoodIntent(Some(reply))
  {
  }
}
