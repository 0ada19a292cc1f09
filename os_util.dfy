/**
 * Operating-system detection (forge.util.OSUtil): a prioritised substring
 * classification of the lower-cased "os.name" property, remembered after the
 * first call. The property value is an input here.
 */
module OSUtil {
  import opened Wrappers
  import opened Text

  datatype OS = Windows | MacOS | Linux | Other

  /** The substrings tested, in order, with the system each one selects. */
  const Rules: seq<(seq<string>, OS)> :=
    [(["win"], Windows), (["mac"], MacOS), (["nix", "nux", "aix"], Linux)]

  /** Some needle of the list occurs in name. */
  predicate ContainsAny(name: string, needles: seq<string>) {
    exists k :: 0 <= k < |needles| && Contains(name, needles[k])
  }

  /** The system of the first rule with a matching needle; Other if none matches. */
  function FirstMatch(rules: seq<(seq<string>, OS)>, name: string): OS {
    if rules == [] then Other
    else if ContainsAny(name, rules[0].0) then rules[0].1
    else FirstMatch(rules[1..], name)
  }

  /** The if/else chain of detectOS applied to the (already lower-cased) name. */
  function ClassifyLower(name: string): OS {
    if Contains(name, "win") then Windows
    else if Contains(name, "mac") then MacOS
    else if Contains(name, "nix") || Contains(name, "nux") || Contains(name, "aix") then Linux
    else Other
  }

  lemma ContainsAnyOne(name: string, needle: string)
    ensures ContainsAny(name, [needle]) <==> Contains(name, needle)
  {
    if Contains(name, needle) {
      assert [needle][0] == needle;
    }
  }

  lemma ContainsAnyThree(name: string, a: string, b: string, c: string)
    ensures ContainsAny(name, [a, b, c]) <==> Contains(name, a) || Contains(name, b) || Contains(name, c)
  {
    var l := [a, b, c];
    assert l[0] == a && l[1] == b && l[2] == c;
  }

  /** The if/else chain and the priority table agree on every name. */
  lemma ChainIsTable(name: string)
    ensures ClassifyLower(name) == FirstMatch(Rules, name)
  {
    ContainsAnyOne(name, "win");
    ContainsAnyOne(name, "mac");
    ContainsAnyThree(name, "nix", "nux", "aix");
    var r1 := Rules[1..];
    var r2 := r1[1..];
    assert r1 == [(["mac"], MacOS), (["nix", "nux", "aix"], Linux)];
    assert r2 == [(["nix", "nux", "aix"], Linux)];
    assert r2[1..] == [];
    assert FirstMatch(r2, name) == if ContainsAny(name, ["nix", "nux", "aix"]) then Linux else Other;
    assert FirstMatch(r1, name) == if ContainsAny(name, ["mac"]) then MacOS else FirstMatch(r2, name);
    assert FirstMatch(Rules, name) == if ContainsAny(name, ["win"]) then Windows else FirstMatch(r1, name);
  }

  /**
   * What detectOS decides for a given os.name: the name is lower-cased first and
   * the result is the first rule of the priority table that matches.
   */
  function Classify(osName: string): (os: OS)
    ensures os == FirstMatch(Rules, ToLower(osName))
  {
    var name := ToLower(osName);
    ChainIsTable(name);
    ClassifyLower(name)
  }

  /** "win" anywhere in the lower-cased name selects Windows, whatever else it contains. */
  lemma WindowsFirst(osName: string)
    requires Contains(ToLower(osName), "win")
    ensures Classify(osName) == Windows
  {
  }

  /** The classification depends only on the lower-cased name. */
  lemma CaseInsensitive(osName: string)
    ensures Classify(ToLower(osName)) == Classify(osName)
  {
    ToLowerIdempotent(osName);
  }

  /** Each result and the exact condition that yields it. */
  lemma ClassifyCases(osName: string)
    ensures var name := ToLower(osName);
      && (Classify(osName) == Windows <==> Contains(name, "win"))
      && (Classify(osName) == MacOS <==> !Contains(name, "win") && Contains(name, "mac"))
      && (Classify(osName) == Linux <==>
            !Contains(name, "win") && !Contains(name, "mac") &&
            (Contains(name, "nix") || Contains(name, "nux") || Contains(name, "aix")))
      && (Classify(osName) == Other <==>
            !Contains(name, "win") && !Contains(name, "mac") &&
            !Contains(name, "nix") && !Contains(name, "nux") && !Contains(name, "aix"))
  {
  }

  /** A name classified as Windows stays Windows whatever text is put around it. */
  lemma WindowsInContext(a: string, osName: string, b: string)
    requires Classify(osName) == Windows
    ensures Classify(a + osName + b) == Windows
  {
    ToLowerAppend(a, osName);
    ToLowerAppend(a + osName, b);
    ContainsInContext(ToLower(a), ToLower(osName), ToLower(b), "win");
  }

  /** The write-once memo of detectOS (the static field detectedOS). */
  class Detector {
    var detectedOS: Option<OS>

    constructor ()
      ensures detectedOS == None
    {
      detectedOS := None;
    }

    /**
     * detectOS: the first call classifies osName and stores the result; every
     * later call returns the stored value without looking at its argument.
     */
    method DetectOS(osName: string) returns (os: OS)
      modifies this
      ensures detectedOS == Some(os)
      ensures old(detectedOS).Some? ==> os == old(detectedOS).value
      ensures old(detectedOS).None? ==> os == Classify(osName)
    {
      if detectedOS.Some? {
        return detectedOS.value;
      }
      var name := ToLower(osName);
      if Contains(name, "win") {
        detectedOS := Some(Windows);
      } else if Contains(name, "mac") {
        detectedOS := Some(MacOS);
      } else if Contains(name, "nix") || Contains(name, "nux") || Contains(name, "aix") {
        detectedOS := Some(Linux);
      } else {
        detectedOS := Some(Other);
      }
      os := detectedOS.value;
    }
  }

  /** Two calls with different names agree: the second answer is the first one. */
  method DetectTwice(d: Detector, first: string, second: string) returns (a: OS, b: OS)
    modifies d
    ensures a == b
    ensures old(d.detectedOS).None? ==> a == Classify(first)
  {
    a := d.DetectOS(first);
    b := d.DetectOS(second);
  }
}
