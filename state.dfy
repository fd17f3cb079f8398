/** The modification flags the histogram managers consult: which bodies moved
    as a whole (external), which changed inside (internal), which symmetry
    copies changed, and whether the hydration layer changed. The flags are set
    by the rest of the program; the managers only read them and reset them. */
module State {

  class StateManager {
    var internallyModified: seq<bool>
    var externallyModified: seq<bool>
    var symmetryModified: seq<seq<bool>>
    var hydrationModified: bool

    constructor (internal: seq<bool>, external: seq<bool>, symmetry: seq<seq<bool>>, hydration: bool)
      ensures internallyModified == internal && externallyModified == external
      ensures symmetryModified == symmetry && hydrationModified == hydration
    {
      internallyModified := internal;
      externallyModified := external;
      symmetryModified := symmetry;
      hydrationModified := hydration;
    }

    /** `reset_to_false`: every flag cleared, the shapes kept. */
    method ResetToFalse()
      modifies this
      ensures |internallyModified| == old(|internallyModified|)
      ensures |externallyModified| == old(|externallyModified|)
      ensures |symmetryModified| == old(|symmetryModified|)
      ensures forall i :: 0 <= i < |internallyModified| ==> !internallyModified[i]
      ensures forall i :: 0 <= i < |externallyModified| ==> !externallyModified[i]
      ensures forall i :: 0 <= i < |symmetryModified| ==>
        |symmetryModified[i]| == old(|symmetryModified[i]|) && forall k :: 0 <= k < |symmetryModified[i]| ==> !symmetryModified[i][k]
      ensures !hydrationModified
    {
      internallyModified := seq(|internallyModified|, _ => false);
      externallyModified := seq(|externallyModified|, _ => false);
      var sym := symmetryModified;
      symmetryModified := seq(|sym|, i requires 0 <= i < |sym| => seq(|sym[i]|, _ => false));
      hydrationModified := false;
    }
  }
}
