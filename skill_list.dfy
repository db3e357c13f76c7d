/**
 * The skill list a user edits on the profile page and on the new-task
 * page: a typed skill is added once, trimmed; a badge's cross removes the
 * skill; on the new-task page a recommended skill is added with one click.
 * Both pages keep the list and the text box in React state and replace
 * them through setters; the editor below holds that state.
 */
module SkillList {
  import opened Strings
  import opened Seqs

  /** No skill appears twice. */
  predicate Distinct(skills: seq<string>)
  {
    forall i, j :: 0 <= i < j < |skills| ==> skills[i] != skills[j]
  }

  /** Skills the user can see: none is empty or starts or ends with white space. */
  predicate Clean(skills: seq<string>)
  {
    forall i :: 0 <= i < |skills| ==> skills[i] != "" && Trim(skills[i]) == skills[i]
  }

  /**
   * `skills` with `skill` appended unless it is already there. This is
   * both the recommended-skill click and, on a trimmed non-empty entry,
   * the add button.
   */
  function Including(skills: seq<string>, skill: string): (r: seq<string>)
    ensures skill in r
    ensures forall x :: x in r <==> x in skills || x == skill
    ensures |skills| <= |r| <= |skills| + 1 && r[..|skills|] == skills
    ensures Distinct(skills) ==> Distinct(r)
  {
    if skill in skills then skills else skills + [skill]
  }

  /** Whether the add button takes the text typed: trimmed, it is non-empty and new. */
  predicate Accepts(skills: seq<string>, input: string)
  {
    Trim(input) != "" && Trim(input) !in skills
  }

  /** The list after the add button: the trimmed entry appended when accepted. */
  function Added(skills: seq<string>, input: string): (r: seq<string>)
    ensures Accepts(skills, input) <==> r == skills + [Trim(input)]
    ensures !Accepts(skills, input) <==> r == skills
    ensures Distinct(skills) ==> Distinct(r)
    ensures Clean(skills) ==> Clean(r)
  {
    if Accepts(skills, input) then
      TrimOfTrimmed(Trim(input));
      Including(skills, Trim(input))
    else skills
  }

  /** The list after removing a skill: every equal entry goes, the rest keep their order. */
  function Removed(skills: seq<string>, skill: string): (r: seq<string>)
    ensures skill !in r
    ensures forall x :: x != skill ==> (x in r <==> x in skills)
    ensures IsSubsequence(r, skills)
  {
    FilterIsSubsequence(skills, Other(skill));
    Filter(skills, Other(skill))
  }

  function Other(skill: string): string -> bool
  {
    s => s != skill
  }

  /** A removal keeps the list free of duplicates. */
  lemma RemovedKeepsDistinct(skills: seq<string>, skill: string)
    requires Distinct(skills)
    ensures Distinct(Removed(skills, skill))
  {
    SubsequenceKeepsDistinct(Removed(skills, skill), skills);
  }

  /** Deleting elements from a list without duplicates leaves none. */
  lemma {:induction false} SubsequenceKeepsDistinct(r: seq<string>, s: seq<string>)
    requires Distinct(s) && IsSubsequence(r, s)
    ensures Distinct(r)
    decreases |s|
  {
    if r != [] && s != [] {
      if r[0] == s[0] {
        SubsequenceKeepsDistinct(r[1..], s[1..]);
        SubsequenceMembers(r[1..], s[1..]);
        assert r[0] !in s[1..];
        forall i, j | 0 <= i < j < |r| ensures r[i] != r[j] {
          if i == 0 {
            assert r[j] == r[1..][j - 1];
          } else {
            assert r[i] == r[1..][i - 1] && r[j] == r[1..][j - 1];
          }
        }
      } else {
        SubsequenceKeepsDistinct(r, s[1..]);
      }
    }
  }

  /** What a subsequence holds, its source holds. */
  lemma {:induction false} SubsequenceMembers(r: seq<string>, s: seq<string>)
    requires IsSubsequence(r, s)
    ensures forall x :: x in r ==> x in s
    decreases |s|
  {
    if r != [] && s != [] {
      if r[0] == s[0] {
        SubsequenceMembers(r[1..], s[1..]);
        assert forall x :: x in r ==> x == r[0] || x in r[1..];
      } else {
        SubsequenceMembers(r, s[1..]);
      }
    }
  }

  /** Removing a skill that was just added gives the list back. */
  lemma {:induction false} AddThenRemove(skills: seq<string>, input: string)
    requires Accepts(skills, input)
    ensures Removed(Added(skills, input), Trim(input)) == skills
  {
    var skill := Trim(input);
    FilterAppend(skills, [skill], Other(skill));
    FilterOthers(skills, skill);
  }

  /** Filtering out a skill that is absent changes nothing. */
  lemma FilterOthers(skills: seq<string>, skill: string)
    requires skill !in skills
    ensures Filter(skills, Other(skill)) == skills
  {
    FilterAll(skills, Other(skill));
  }

  /** Adding is idempotent: the same entry a second time changes nothing. */
  lemma AddTwice(skills: seq<string>, input: string)
    ensures Added(Added(skills, input), input) == Added(skills, input)
  {
  }

  /** After a removal the skill can be added again, and it goes to the end. */
  lemma RemoveThenAdd(skills: seq<string>, input: string)
    requires Trim(input) != ""
    ensures Added(Removed(skills, Trim(input)), input) == Removed(skills, Trim(input)) + [Trim(input)]
  {
  }

  /** The recommended skills offered on the new-task page. */
  const Recommended: seq<string> := ["UI设计", "前端开发", "后端开发", "产品经理", "数据分析", "内容运营"]

  /**
   * A recommended skill is already trimmed and non-empty, so clicking it
   * does what typing it and pressing the add button does.
   */
  lemma RecommendedLikeTyped(skills: seq<string>, skill: string)
    requires skill in Recommended
    ensures Including(skills, skill) == Added(skills, skill)
  {
    assert !IsSpace(skill[0]) && !IsSpace(skill[|skill| - 1]);
    assert Trim(skill) == skill;
  }

  /** Adding a recommended skill keeps a list free of duplicates and of untrimmed entries. */
  lemma IncludingRecommendedKeepsValid(skills: seq<string>, skill: string)
    requires skill in Recommended
    ensures Distinct(skills) && Clean(skills) ==> Distinct(Including(skills, skill)) && Clean(Including(skills, skill))
  {
    RecommendedLikeTyped(skills, skill);
    if Clean(skills) {
      assert Clean(Added(skills, skill));
    }
  }

  /** The state of a skill editor: the list and the text box. */
  class Editor {
    var skills: seq<string>
    var input: string

    /** The list holds no duplicates and no empty or untrimmed entry. */
    predicate Valid()
      reads this
    {
      Distinct(skills) && Clean(skills)
    }

    /** An empty editor, as the new-task page opens. */
    constructor ()
      ensures Valid() && skills == [] && input == ""
    {
      skills := [];
      input := "";
    }

    /** The list the profile page loads from the server replaces the current one. */
    method Load(loaded: seq<string>)
      modifies this
      ensures skills == loaded && input == old(input)
    {
      skills := loaded;
    }

    /** Typing into the text box. */
    method Type(text: string)
      modifies this
      ensures skills == old(skills) && input == text
    {
      input := text;
    }

    /** The add button (or Enter in the text box): the box is cleared only when the entry is taken. */
    method AddSkill()
      modifies this
      ensures old(Valid()) ==> Valid()
      ensures skills == Added(old(skills), old(input))
      ensures input == if Accepts(old(skills), old(input)) then "" else old(input)
    {
      ghost var added := Added(skills, input);
      var entry := Trim(input);
      if entry != "" && entry !in skills {
        skills := skills + [entry];
        input := "";
      }
      assert skills == added;
    }

    /** A badge's cross. */
    method RemoveSkill(skill: string)
      modifies this
      ensures old(Valid()) ==> Valid()
      ensures skills == Removed(old(skills), skill) && input == old(input)
    {
      if Distinct(skills) {
        RemovedKeepsDistinct(skills, skill);
      }
      SubsequenceMembers(Removed(skills, skill), skills);
      skills := Filter(skills, Other(skill));
    }

    /** A click on a recommended skill. */
    method AddRecommended(skill: string)
      requires skill in Recommended
      modifies this
      ensures old(Valid()) ==> Valid()
      ensures skills == Including(old(skills), skill) && input == old(input)
    {
      ghost var before := skills;
      IncludingRecommendedKeepsValid(before, skill);
      if skill !in skills {
        skills := skills + [skill];
      }
      assert skills == Including(before, skill);
    }
  }
}
