/**
 * `CharacterManager`: shows one of two characters, Capibara (dropdown index
 * 0) or TungTung (index 1), by setting the active flags of their game
 * objects. The two references are set in the scene and may, in principle,
 * be the same object; the contracts say what happens then too.
 */
module Characters {

  /** The one part of a GameObject this component touches. */
  class GameObject {
    var active: bool

    constructor (active: bool)
      ensures this.active == active
    {
      this.active := active;
    }
  }

  /** Which of the two characters are active. */
  datatype Visibility = Visibility(capibara: bool, tungTung: bool)

  const OnlyCapibara: Visibility := Visibility(true, false)
  const OnlyTungTung: Visibility := Visibility(false, true)

  predicate ExactlyOne(v: Visibility)
  {
    v.capibara != v.tungTung
  }

  /** `OnCharacterChanged` on two distinct objects. */
  function Select(v: Visibility, index: int): (r: Visibility)
    ensures index == 0 ==> r == OnlyCapibara
    ensures index == 1 ==> r == OnlyTungTung
    ensures index != 0 && index != 1 ==> r == v
    ensures ExactlyOne(v) ==> ExactlyOne(r)
  {
    if index == 0 then OnlyCapibara
    else if index == 1 then OnlyTungTung
    else v
  }

  /** A sequence of dropdown changes, oldest first. */
  function Replay(v: Visibility, indices: seq<int>): Visibility
    decreases |indices|
  {
    if indices == [] then v else Replay(Select(v, indices[0]), indices[1..])
  }

  /** The last index in the sequence that names a character, if any. */
  function LastChoice(indices: seq<int>): (r: int)
    ensures r == -1 || r == 0 || r == 1
  {
    if indices == [] then -1
    else if indices[|indices| - 1] == 0 || indices[|indices| - 1] == 1 then indices[|indices| - 1]
    else LastChoice(indices[..|indices| - 1])
  }

  /** After `Start` and any sequence of dropdown changes, exactly one character is active. */
  lemma {:induction false} ReplayKeepsExactlyOne(v: Visibility, indices: seq<int>)
    requires ExactlyOne(v)
    ensures ExactlyOne(Replay(v, indices))
    decreases |indices|
  {
    if indices != [] {
      ReplayKeepsExactlyOne(Select(v, indices[0]), indices[1..]);
    }
  }

  lemma {:induction false} ReplayAppend(v: Visibility, indices: seq<int>, i: int)
    ensures Replay(v, indices + [i]) == Select(Replay(v, indices), i)
    decreases |indices|
  {
    if indices != [] {
      assert (indices + [i])[1..] == indices[1..] + [i];
      ReplayAppend(Select(v, indices[0]), indices[1..], i);
    }
  }

  /** The character shown is the one the last 0-or-1 index chose; with none, the state is unchanged. */
  lemma {:induction false} LastChoiceWins(v: Visibility, indices: seq<int>)
    ensures LastChoice(indices) == 0 ==> Replay(v, indices) == OnlyCapibara
    ensures LastChoice(indices) == 1 ==> Replay(v, indices) == OnlyTungTung
    ensures LastChoice(indices) == -1 ==> Replay(v, indices) == v
    decreases |indices|
  {
    if indices != [] {
      var init := indices[..|indices| - 1];
      var last := indices[|indices| - 1];
      assert indices == init + [last];
      ReplayAppend(v, init, last);
      LastChoiceWins(v, init);
    }
  }

  class CharacterManager {
    const capibara: GameObject
    const tungTung: GameObject

    constructor (capibara: GameObject, tungTung: GameObject)
      ensures this.capibara == capibara && this.tungTung == tungTung
    {
      this.capibara := capibara;
      this.tungTung := tungTung;
    }

    ghost function Model(): Visibility
      reads capibara, tungTung
    {
      Visibility(capibara.active, tungTung.active)
    }

    /** Two distinct objects with exactly one of them active. */
    ghost predicate Valid()
      reads capibara, tungTung
    {
      capibara != tungTung && ExactlyOne(Model())
    }

    /** `Start`: show Capibara, as dropdown value 0 does. */
    method Start()
      modifies capibara, tungTung
      ensures !tungTung.active
      ensures capibara.active <==> capibara != tungTung
      ensures capibara != tungTung ==> Model() == OnlyCapibara && Valid()
    {
      ShowCapibara();
    }

    method OnCharacterChanged(characterIndex: int)
      modifies capibara, tungTung
      ensures capibara != tungTung ==> Model() == Select(old(Model()), characterIndex)
      ensures characterIndex == 0 ==> !tungTung.active && (capibara.active <==> capibara != tungTung)
      ensures characterIndex == 1 ==> tungTung.active && (capibara.active <==> capibara == tungTung)
      ensures characterIndex != 0 && characterIndex != 1 ==> unchanged(capibara, tungTung)
      ensures old(Valid()) ==> Valid()
    {
      if characterIndex == 0 {
        ShowCapibara();
      } else if characterIndex == 1 {
        ShowTungTung();
      }
    }

    method ShowCapibara()
      modifies capibara, tungTung
      ensures !tungTung.active
      ensures capibara.active <==> capibara != tungTung
    {
      capibara.active := true;
      tungTung.active := false;
    }

    method ShowTungTung()
      modifies capibara, tungTung
      ensures tungTung.active
      ensures capibara.active <==> capibara == tungTung
    {
      capibara.active := false;
      tungTung.active := true;
    }
  }
}
