/** The two teams of a cornhole game. */
module Teams {

  datatype Team = Red | Blue {

    /** The name shown to players. */
    function Name(): (s: string)
      ensures |s| > 0
    {
      match this
      case Red => "Red"
      case Blue => "Blue"
    }

    /** The opponent of this team: the scorer's "second team" of a round. */
    function Other(): (o: Team)
      ensures o != this
    {
      if this == Red then Blue else Red
    }
  }

  lemma NameValues()
    ensures Red.Name() == "Red" && Blue.Name() == "Blue"
  {
  }

  /** Different teams have different names. */
  lemma NameInjective(a: Team, b: Team)
    ensures a.Name() == b.Name() <==> a == b
  {
    if a != b {
      assert a.Name()[0] != b.Name()[0];
    }
  }

  /** There are exactly two teams: `Other` swaps them and fixes neither. */
  lemma OtherIsInvolution(t: Team)
    ensures t.Other().Other() == t
    ensures t.Other() != t
    ensures t == Red || t == Blue
  {
  }
}
