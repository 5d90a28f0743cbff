/**
 * The peer card (src/components/dashboard/PeerCard.tsx): the avatar initials
 * computed from a name, and the skill badges (the first three skills and a
 * "+N" badge for the rest). Characters are modelled one per string element; the
 * upper-casing covers the ASCII letters.
 */
module PeerCard {
  import opened Wrappers

  // ---------------------------------------------------------------------------
  // `name.split(' ')` and its inverse `parts.join(' ')`
  // ---------------------------------------------------------------------------

  /** `s.split(' ')`: the maximal space-free pieces between single spaces. A
      run of `k` spaces yields `k - 1` empty pieces, and the empty string splits
      into one empty piece. */
  function Split(s: string): (parts: seq<string>)
    ensures |parts| >= 1
    ensures forall k :: 0 <= k < |parts| ==> ' ' !in parts[k]
  {
    if s == [] then [""]
    else if s[0] == ' ' then [""] + Split(s[1..])
    else
      var rest := Split(s[1..]);
      assert forall k :: 1 <= k < |rest| ==> rest[k] == rest[1..][k - 1];
      [[s[0]] + rest[0]] + rest[1..]
  }

  /** `parts.join(' ')`. */
  function Join(parts: seq<string>): string
    requires |parts| >= 1
  {
    if |parts| == 1 then parts[0] else parts[0] + " " + Join(parts[1..])
  }

  /** Joining the pieces of a split with single spaces gives back the string. */
  lemma {:induction false} JoinSplit(s: string)
    ensures Join(Split(s)) == s
  {
    if s != [] {
      JoinSplit(s[1..]);
      if s[0] != ' ' {
        var rest := Split(s[1..]);
        if |rest| > 1 {
          assert ([[s[0]] + rest[0]] + rest[1..])[1..] == rest[1..];
        }
      }
    }
  }

  /** Splitting a join of space-free pieces gives back the pieces. */
  lemma {:induction false} SplitJoin(parts: seq<string>)
    requires |parts| >= 1
    requires forall k :: 0 <= k < |parts| ==> ' ' !in parts[k]
    ensures Split(Join(parts)) == parts
  {
    if |parts| == 1 {
      SplitWord(parts[0], []);
      assert parts[0] + [] == parts[0];
    } else {
      var rest := Join(parts[1..]);
      SplitJoin(parts[1..]);
      SplitWord(parts[0], " " + rest);
      assert (" " + rest)[1..] == rest;
      assert Split(" " + rest) == [""] + parts[1..];
      assert parts[0] + " " + rest == parts[0] + (" " + rest);
      assert parts[0] + "" == parts[0];
      assert parts == [parts[0]] + parts[1..];
    }
  }

  /** A space-free word in front of a space, or at the end, is one piece. */
  lemma {:induction false} SplitWord(word: string, tail: string)
    requires ' ' !in word
    requires tail == [] || tail[0] == ' '
    ensures Split(word + tail) == [word + Split(tail)[0]] + Split(tail)[1..]
  {
    var t := Split(tail);
    if word != [] {
      SplitWord(word[1..], tail);
      assert (word + tail)[0] == word[0] != ' ';
      assert (word + tail)[1..] == word[1..] + tail;
      var rest := Split(word[1..] + tail);
      assert rest == [word[1..] + t[0]] + t[1..];
      assert rest[0] == word[1..] + t[0] && rest[1..] == t[1..];
      assert [word[0]] + (word[1..] + t[0]) == word + t[0];
    } else {
      assert word + tail == tail;
      assert word + t[0] == t[0];
      assert [t[0]] + t[1..] == t;
    }
  }

  // ---------------------------------------------------------------------------
  // Initials
  // ---------------------------------------------------------------------------

  /** `parts.map(part => part[0]).join('')`: the first character of every
      piece; an empty piece gives `undefined`, which joins as nothing. */
  function FirstChars(parts: seq<string>): string
  {
    if parts == [] then ""
    else (if parts[0] == "" then "" else [parts[0][0]]) + FirstChars(parts[1..])
  }

  /** The number of non-empty pieces. */
  function NonEmptyCount(parts: seq<string>): nat
  {
    if parts == [] then 0
    else (if parts[0] == "" then 0 else 1) + NonEmptyCount(parts[1..])
  }

  /** `toUpperCase` on one character, for the ASCII letters. */
  function UpperChar(c: char): (u: char)
    ensures !('a' <= u <= 'z')
    ensures 'a' <= c <= 'z' ==> u as int == c as int - 32
    ensures !('a' <= c <= 'z') ==> u == c
  {
    if 'a' <= c <= 'z' then (c as int - 32) as char else c
  }

  /** `toUpperCase` on a string: character by character. */
  function ToUpper(s: string): (u: string)
    ensures |u| == |s|
    ensures forall k :: 0 <= k < |s| ==> u[k] == UpperChar(s[k])
  {
    if s == [] then [] else [UpperChar(s[0])] + ToUpper(s[1..])
  }

  /** The avatar fallback text. */
  function Initials(name: string): string
  {
    ToUpper(FirstChars(Split(name)))
  }

  /** Every initial is a first character of a non-empty piece, so there are as
      many initials as non-empty pieces. */
  lemma {:induction false} FirstCharsLength(parts: seq<string>)
    ensures |FirstChars(parts)| == NonEmptyCount(parts)
  {
    if parts != [] {
      FirstCharsLength(parts[1..]);
    }
  }

  /** The length of the initials is the number of non-empty pieces of the name;
      the empty pieces left by repeated spaces contribute nothing. */
  lemma InitialsLength(name: string)
    ensures |Initials(name)| == NonEmptyCount(Split(name))
  {
    FirstCharsLength(Split(name));
  }

  /** No initial is a lower-case ASCII letter. */
  lemma InitialsAreUpperCase(name: string)
    ensures forall k :: 0 <= k < |Initials(name)| ==> !('a' <= Initials(name)[k] <= 'z')
  {
  }

  /** The characters of `s` that start a word: not a space, and at the start of
      the string or right after a space. `atStart` says whether the character
      before `s` was a space (or there was none). */
  function WordStarts(s: string, atStart: bool): string
  {
    if s == [] then ""
    else (if atStart && s[0] != ' ' then [s[0]] else "") + WordStarts(s[1..], s[0] == ' ')
  }

  lemma {:induction false} FirstCharsAppend(a: seq<string>, b: seq<string>)
    ensures FirstChars(a + b) == FirstChars(a) + FirstChars(b)
  {
    if a != [] {
      assert (a + b)[1..] == a[1..] + b;
      FirstCharsAppend(a[1..], b);
    } else {
      assert a + b == b;
    }
  }

  /** The first characters of the pieces are the word starts of the string;
      after the first piece, they are the word starts that follow a space. */
  lemma {:induction false} FirstCharsAreWordStarts(s: string)
    ensures FirstChars(Split(s)) == WordStarts(s, true)
    ensures FirstChars(Split(s)[1..]) == WordStarts(s, false)
  {
    if s != [] {
      FirstCharsAreWordStarts(s[1..]);
      var rest := Split(s[1..]);
      if s[0] == ' ' {
        FirstCharsAppend([""], rest);
        assert Split(s)[1..] == rest;
      } else {
        var parts := [[s[0]] + rest[0]] + rest[1..];
        assert Split(s) == parts;
        FirstCharsAppend([[s[0]] + rest[0]], rest[1..]);
        assert parts[1..] == rest[1..];
      }
    }
  }

  /** The initials, described on the characters of the name: the upper-cased
      characters that start a word. "Alex Johnson" gives "AJ". */
  lemma InitialsAreUpperWordStarts(name: string)
    ensures Initials(name) == ToUpper(WordStarts(name, true))
  {
    FirstCharsAreWordStarts(name);
  }

  lemma InitialsExample()
    ensures Initials("Alex Johnson") == "AJ"
  {
    var parts := ["Alex", "Johnson"];
    assert Join(parts) == "Alex Johnson";
    SplitJoin(parts);
    assert FirstChars(parts) == "AJ";
  }

  // ---------------------------------------------------------------------------
  // Skill badges
  // ---------------------------------------------------------------------------

  /** `skills.slice(0, 3)`: the badges shown, the first skills in order. */
  function ShownSkills(skills: seq<string>): (shown: seq<string>)
    ensures |shown| == if |skills| < 3 then |skills| else 3
    ensures shown <= skills
  {
    skills[..if |skills| < 3 then |skills| else 3]
  }

  /** The "+N" badge: present only when there are more than three skills. */
  function OverflowBadge(skills: seq<string>): (badge: Option<nat>)
    ensures badge.Some? <==> |skills| > 3
  {
    if |skills| > 3 then Some(|skills| - 3) else None
  }

  /** The shown badges and the "+N" count together account for every skill, and
      a "+N" badge never says "+0". */
  lemma BadgesAccountForEverySkill(skills: seq<string>)
    ensures |ShownSkills(skills)| + OverflowBadge(skills).GetOr(0) == |skills|
    ensures OverflowBadge(skills).Some? ==> OverflowBadge(skills).value >= 1
  {
  }
}
