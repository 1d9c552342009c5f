/** The `target` parameter: which Java versions Retrolambda can target and the
    class-file major version each one stands for. */
module Targets {
  import opened Common
  import opened Text
  import opened SortedStrings

  /** targetBytecodeVersions: target Java version to class-file major version. */
  const TargetBytecodeVersions: map<string, nat> :=
    map["1.5" := 49, "1.6" := 50, "1.7" := 51, "1.8" := 52]

  /** The keys of that ImmutableMap in its iteration order, which is the order they were put in. */
  const TargetKeys: seq<string> := ["1.5", "1.6", "1.7", "1.8"]

  /** The accepted values as the error message lists them: the keys put
      through a TreeSet and joined with ", ". */
  function PossibleValues(): string
  {
    Join(TreeSetOf(TargetKeys), ", ")
  }

  function UnrecognizedTarget(target: string): string
  {
    "Unrecognized target '" + target + "'. Possible values are " + PossibleValues()
  }

  /** validateTarget: fails unless the target is a key of the version map. */
  function ValidateTarget(target: string): Outcome
  {
    if target in TargetBytecodeVersions then Success else Failure(UnrecognizedTarget(target))
  }

  /** TargetKeys lists exactly the keys of the version map, and the TreeSet
      puts them in ascending order. */
  lemma PossibleValuesSorted()
    ensures forall k :: k in TargetKeys <==> k in TargetBytecodeVersions
    ensures TreeSetOf(TargetKeys) == TargetKeys
    ensures PossibleValues() == "1.5, 1.6, 1.7, 1.8"
  {
    assert Below("1.5", "1.6") && Below("1.6", "1.7") && Below("1.7", "1.8");
    assert StrictlySorted(TargetKeys) by {
      forall i, j | 0 <= i < j < 4 ensures Below(TargetKeys[i], TargetKeys[j]) {
        if j == i + 1 {
        } else if j == i + 2 {
          BelowTransitive(TargetKeys[i], TargetKeys[i + 1], TargetKeys[j]);
        } else {
          BelowTransitive(TargetKeys[0], TargetKeys[1], TargetKeys[2]);
          BelowTransitive(TargetKeys[0], TargetKeys[2], TargetKeys[3]);
        }
      }
    }
    SortedUnique(TreeSetOf(TargetKeys), TargetKeys);
  }

  /** validateTarget accepts exactly the four supported targets, and rejects
      every other string with a message naming them in ascending order. */
  lemma ValidateTargetAccepts(target: string)
    ensures ValidateTarget(target).Success? <==>
              target == "1.5" || target == "1.6" || target == "1.7" || target == "1.8"
    ensures ValidateTarget(target).Failure? ==>
              ValidateTarget(target).message
                == "Unrecognized target '" + target + "'. Possible values are " + "1.5, 1.6, 1.7, 1.8"
  {
    PossibleValuesSorted();
  }

  /** Target 1.x stands for class-file major version 44 + x. */
  lemma BytecodeVersionOfTarget(target: string)
    requires ValidateTarget(target).Success?
    ensures |target| == 3 && target[..2] == "1." && '5' <= target[2] <= '8'
    ensures TargetBytecodeVersions[target] == 44 + (target[2] - '0') as int
  {
  }
}
