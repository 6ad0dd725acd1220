/** Python text operations the program relies on. */
module Text {

  datatype Option<+T> = None | Some(value: T)

  /** The characters for which `str.isspace` is true, and which `str.strip` removes. */
  predicate IsSpace(c: char) {
    '\t' <= c <= '\r' || '\U{1c}' <= c <= ' ' || c == '\U{85}' || c == '\U{a0}' || c == '\U{1680}'
    || '\U{2000}' <= c <= '\U{200a}' || c in "\U{2028}\U{2029}\U{202f}\U{205f}\U{3000}"
  }

  /** Everything before `i` is whitespace, and what is at `i`, if anything, is not. */
  predicate IsTextStart(s: string, i: nat) {
    i <= |s| && (forall j :: 0 <= j < i ==> IsSpace(s[j])) && (i < |s| ==> !IsSpace(s[i]))
  }

  predicate IsTextEnd(s: string, i: nat) {
    i <= |s| && (forall j :: i <= j < |s| ==> IsSpace(s[j])) && (i > 0 ==> !IsSpace(s[i - 1]))
  }

  lemma {:induction false} TextStartExists(s: string, i: nat)
    requires i <= |s| && forall j :: 0 <= j < i ==> IsSpace(s[j])
    ensures exists k :: IsTextStart(s, k)
    decreases |s| - i
  {
    if i < |s| && IsSpace(s[i]) {
      TextStartExists(s, i + 1);
    } else {
      assert IsTextStart(s, i);
    }
  }

  lemma {:induction false} TextEndExists(s: string, i: nat)
    requires i <= |s| && forall j :: i <= j < |s| ==> IsSpace(s[j])
    ensures exists k :: IsTextEnd(s, k)
  {
    if i > 0 && IsSpace(s[i - 1]) {
      TextEndExists(s, i - 1);
    } else {
      assert IsTextEnd(s, i);
    }
  }

  function TextStart(s: string): (i: nat)
    ensures IsTextStart(s, i)
  {
    TextStartExists(s, 0);
    var i :| IsTextStart(s, i);
    i
  }

  function TextEnd(s: string): (i: nat)
    ensures IsTextEnd(s, i)
  {
    TextEndExists(s, |s|);
    var i :| IsTextEnd(s, i);
    i
  }

  /** `str.strip()`: the text between the first and the last character that is not whitespace. */
  function Strip(s: string): (r: string)
    ensures r != [] ==> !IsSpace(r[0]) && !IsSpace(r[|r| - 1])
  {
    if TextStart(s) == |s| then [] else s[TextStart(s)..TextEnd(s)]
  }

  /** What `str.strip` takes away is whitespace, on both sides, and it takes all of it. */
  lemma StripIsMiddle(s: string) returns (i: nat, j: nat)
    ensures i <= j <= |s| && Strip(s) == s[i..j] && (i == j || (!IsSpace(s[i]) && !IsSpace(s[j - 1])))
    ensures forall k :: 0 <= k < |s| && !(i <= k < j) ==> IsSpace(s[k])
  {
    i, j := TextStart(s), TextEnd(s);
    if i == |s| {
      j := i;
    }
  }

  lemma StripIsEmpty(s: string)
    ensures Strip(s) == [] <==> forall k :: 0 <= k < |s| ==> IsSpace(s[k])
  {
    var i, j := StripIsMiddle(s);
  }

  /** Text without outer whitespace is left alone, so stripping twice changes nothing. */
  lemma StripFixed(s: string)
    requires s == [] || (!IsSpace(s[0]) && !IsSpace(s[|s| - 1]))
    ensures Strip(s) == s
  {
    assert s != [] ==> TextStart(s) == 0 && TextEnd(s) == |s|;
  }

  predicate IsAscii(s: string) {
    forall i :: 0 <= i < |s| ==> s[i] < '\U{80}'
  }
}
