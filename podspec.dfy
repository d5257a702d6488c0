/**
 * The example pod specification embedded in every scenario block
 * (function `podSpec` of docgen.go): a fixed base block, an optional
 * init-container block and an optional volume block.
 */
module PodSpecs {
  import opened Wrappers
  import opened Seqs
  import opened Strings

  /** One primary container; leaves the outer `v1.PodSpec{` open. */
  const Base: string :=
    "v1.PodSpec{\n" +
    "    Containers: []v1.Container{\n" +
    "        {\n" +
    "            Name:  \"<containerName>\",\n" +
    "            Image: \"<image>\",\n" +
    "            Args:  []string{\"test-webserver\"},\n" +
    "        },\n" +
    "    },\n"

  /** One init container; balanced on its own. */
  const InitContainers: string :=
    "    InitContainers: []v1.Container{\n" +
    "        {\n" +
    "            Name:    \"<initContainerName>\",\n" +
    "            Image:   \"image2\",\n" +
    "            Command: []string{\"sh\", \"-c\", \"sleep 5s\"},\n" +
    "        },\n" +
    "    },\n"

  /** One config-map volume, followed by the only closing brace of the outer block. */
  const Volumes: string :=
    "    Volumes: []v1.Volume{\n" +
    "        {\n" +
    "            Name: \"cm\",\n" +
    "            VolumeSource: v1.VolumeSource{\n" +
    "                ConfigMap: &v1.ConfigMapVolumeSource{\n" +
    "                    LocalObjectReference: v1.LocalObjectReference{Name: \"does-not-exist\"},\n" +
    "                },\n" +
    "            },\n" +
    "        },\n" +
    "    },\n" +
    "}\n"

  /** The closing line that only the volume block carries. */
  const Close: string := "}\n"

  /**
   * The payload for the two textual flags: a block is added only when
   * its flag is exactly "true"; the init containers come before the volumes.
   */
  function PodSpec(addInitContainer: string, addVolume: string): string
  {
    var withInit := if addInitContainer == "true" then Base + InitContainers else Base;
    if addVolume == "true" then withInit + Volumes else withInit
  }

  /** Which optional blocks a payload holds. */
  datatype Sections = Sections(initContainer: bool, volume: bool)

  /** The flag text that switches a block on or off. */
  function FlagText(on: bool): string
  {
    if on then "true" else "false"
  }

  /** Which blocks a text holds, when it is one of the four payloads: a lookup by equality, not a parser. */
  function SectionsOf(s: string): Option<Sections>
  {
    if s == Base then Some(Sections(false, false))
    else if s == Base + InitContainers then Some(Sections(true, false))
    else if s == Base + Volumes then Some(Sections(false, true))
    else if s == Base + InitContainers + Volumes then Some(Sections(true, true))
    else None
  }

  /** Every payload begins with the base block. */
  lemma PodSpecStartsWithBase(addInitContainer: string, addVolume: string)
    ensures HasPrefix(PodSpec(addInitContainer, addVolume), Base)
  {
    if addInitContainer == "true" && addVolume == "true" {
      AppendAssoc(Base, InitContainers, Volumes);
      PrefixOfAppend(Base, InitContainers + Volumes);
    } else if addInitContainer == "true" {
      PrefixOfAppend(Base, InitContainers);
    } else if addVolume == "true" {
      PrefixOfAppend(Base, Volumes);
    } else {
      PrefixOfAppend(Base, "");
    }
  }

  /** A flag other than exactly "true" (say "", "True" or "false") leaves its block out. */
  lemma OnlyExactTrueEnables(addInitContainer: string, addVolume: string)
    ensures addInitContainer != "true" ==> PodSpec(addInitContainer, addVolume) == PodSpec("false", addVolume)
    ensures addVolume != "true" ==> PodSpec(addInitContainer, addVolume) == PodSpec(addInitContainer, "false")
  {
  }

  /** The flags can be read back from the payload: each block is there exactly when its flag is "true". */
  lemma {:induction false} SectionsOfRoundTrip(addInitContainer: string, addVolume: string)
    ensures SectionsOf(PodSpec(addInitContainer, addVolume)) == Some(Sections(addInitContainer == "true", addVolume == "true"))
  {
    assert |Base| < |Base + InitContainers| < |Base + Volumes| < |Base + InitContainers + Volumes|;
  }

  /** Only the four payloads have sections, and each has those of the flags that produce it. */
  lemma SectionsOfSound(s: string, sections: Sections)
    requires SectionsOf(s) == Some(sections)
    ensures s == PodSpec(FlagText(sections.initContainer), FlagText(sections.volume))
  {
  }

  /** With both flags set the init containers sit right after the base block and the volumes right after them. */
  lemma InitContainersBeforeVolumes()
    ensures OccursAt(PodSpec("true", "true"), InitContainers, |Base|)
    ensures OccursAt(PodSpec("true", "true"), Volumes, |Base| + |InitContainers|)
  {
    var r := PodSpec("true", "true");
    assert r == Base + InitContainers + Volumes;
    assert r[|Base|..|Base| + |InitContainers|] == InitContainers;
    assert r[|Base| + |InitContainers|..|Base| + |InitContainers| + |Volumes|] == Volumes;
  }

  /**
   * The payload ends with the closing "}\n" line exactly when the volume
   * block is added: neither the base block nor the init-container block
   * closes the outer `v1.PodSpec{`.
   */
  lemma ClosedOnlyByVolumes(addInitContainer: string, addVolume: string)
    ensures HasSuffix(PodSpec(addInitContainer, addVolume), Close) <==> addVolume == "true"
  {
    var r := PodSpec(addInitContainer, addVolume);
    if addVolume == "true" {
      assert r[|r| - |Close|..] == Volumes[|Volumes| - |Close|..];
    } else if addInitContainer == "true" {
      assert r[|r| - 2] == InitContainers[|InitContainers| - 2] == ',';
    } else {
      assert r[|r| - 2] == Base[|Base| - 2] == ',';
    }
  }
}
