/** Position-based list edits shared by the polygon list and the rule list. */
module Lists {

  /** `s.filter((_, i) => i !== index)`: keep every element whose position is not `index`. */
  function Without<T>(s: seq<T>, index: int): (r: seq<T>)
    ensures |r| == if 0 <= index < |s| then |s| - 1 else |s|
    decreases |s|
  {
    if s == [] then []
    else (if index == 0 then [] else [s[0]]) + Without(s[1..], index - 1)
  }

  /** An index outside the list filters nothing out. */
  lemma {:induction false} WithoutOutside<T>(s: seq<T>, index: int)
    requires !(0 <= index < |s|)
    ensures Without(s, index) == s
    decreases |s|
  {
    if s != [] {
      WithoutOutside(s[1..], index - 1);
      assert Without(s, index) == [s[0]] + s[1..];
    }
  }

  /** An index inside the list splices out exactly that element. */
  lemma {:induction false} WithoutInside<T>(s: seq<T>, index: int)
    requires 0 <= index < |s|
    ensures Without(s, index) == s[..index] + s[index + 1..]
    decreases |s|
  {
    if index == 0 {
      assert Without(s, index) == Without(s[1..], -1);
      WithoutOutside(s[1..], -1);
    } else {
      WithoutInside(s[1..], index - 1);
      assert Without(s, index) == [s[0]] + (s[1..][..index - 1] + s[1..][index..]);
      assert s[..index] == [s[0]] + s[1..][..index - 1];
      assert s[index + 1..] == s[1..][index..];
    }
  }

  /** Filtering out one position splices that element out; an index outside the list changes nothing. */
  lemma WithoutIsSplice<T>(s: seq<T>, index: int)
    ensures Without(s, index) == if 0 <= index < |s| then s[..index] + s[index + 1..] else s
  {
    if 0 <= index < |s| {
      WithoutInside(s, index);
    } else {
      WithoutOutside(s, index);
    }
  }

  /** Element by element: positions before `index` keep their element, later ones move down by one. */
  lemma WithoutKeepsOrder<T>(s: seq<T>, index: int)
    requires 0 <= index < |s|
    ensures |Without(s, index)| == |s| - 1
    ensures forall j :: 0 <= j < index ==> Without(s, index)[j] == s[j]
    ensures forall j :: index <= j < |s| - 1 ==> Without(s, index)[j] == s[j + 1]
  {
    WithoutIsSplice(s, index);
  }
}
