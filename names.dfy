// Fresh names for the code generator: virtual registers `r1000, r1001, …`
// and labels `L0, L1, …`, drawn from two counters that only grow.

module Names {
  import Text

  /** The register name `gerar_temporario` prints for counter value `n`. */
  function TempName(n: nat): string
  {
    "r" + Text.NatToString(n)
  }

  /** The label name `gerar_rotulo` prints for counter value `n`. */
  function LabelName(n: nat): string
  {
    "L" + Text.NatToString(n)
  }

  lemma TempNameInjective(m: nat, n: nat)
    ensures TempName(m) == TempName(n) <==> m == n
  {
    if TempName(m) == TempName(n) {
      assert TempName(m)[1..] == Text.NatToString(m);
      assert TempName(n)[1..] == Text.NatToString(n);
      Text.NatToStringInjective(m, n);
    }
  }

  lemma LabelNameInjective(m: nat, n: nat)
    ensures LabelName(m) == LabelName(n) <==> m == n
  {
    if LabelName(m) == LabelName(n) {
      assert LabelName(m)[1..] == Text.NatToString(m);
      assert LabelName(n)[1..] == Text.NatToString(n);
      Text.NatToStringInjective(m, n);
    }
  }

  /** No register name is a label name. */
  lemma TempIsNotLabel(m: nat, n: nat)
    ensures TempName(m) != LabelName(n)
  {
    assert TempName(m)[0] == 'r' && LabelName(n)[0] == 'L';
  }

  /** A generated register never collides with the frame, data-segment or stack pointer names. */
  lemma TempIsNotSpecial(n: nat)
    ensures TempName(n) != "rfp" && TempName(n) != "rbss" && TempName(n) != "rsp"
  {
    Text.NatToStringDigits(n);
    var s := TempName(n);
    assert s[1] == Text.NatToString(n)[0];
    assert Text.IsDigit(s[1]);
  }

  /**
   * The counters of `gerar_temporario` (from 1000) and `gerar_rotulo` (from 0),
   * with the ghost record of every name handed out so far.
   */
  class NameSupply {
    var countTemp: nat
    var countLabel: nat
    ghost var temps: set<string>
    ghost var labels: set<string>

    ghost predicate Valid()
      reads this
    {
      1000 <= countTemp &&
      temps == (set n | 1000 <= n < countTemp :: TempName(n)) &&
      labels == (set n | 0 <= n < countLabel :: LabelName(n))
    }

    constructor ()
      ensures Valid() && countTemp == 1000 && countLabel == 0
      ensures temps == {} && labels == {}
    {
      countTemp := 1000;
      countLabel := 0;
      temps := {};
      labels := {};
    }

    /** `gerar_temporario`: `r` followed by the counter, which then advances. */
    method NewTemp() returns (name: string)
      requires Valid()
      modifies this
      ensures Valid()
      ensures name == TempName(old(countTemp)) && countTemp == old(countTemp) + 1
      ensures countLabel == old(countLabel) && labels == old(labels)
      ensures name !in old(temps) && temps == old(temps) + {name}
    {
      name := TempName(countTemp);
      forall n | 1000 <= n < countTemp ensures TempName(n) != name {
        TempNameInjective(n, countTemp);
      }
      countTemp := countTemp + 1;
      temps := temps + {name};
    }

    /** `gerar_rotulo`: `L` followed by the counter, which then advances. */
    method NewLabel() returns (name: string)
      requires Valid()
      modifies this
      ensures Valid()
      ensures name == LabelName(old(countLabel)) && countLabel == old(countLabel) + 1
      ensures countTemp == old(countTemp) && temps == old(temps)
      ensures name !in old(labels) && labels == old(labels) + {name}
    {
      name := LabelName(countLabel);
      forall n | 0 <= n < countLabel ensures LabelName(n) != name {
        LabelNameInjective(n, countLabel);
      }
      countLabel := countLabel + 1;
      labels := labels + {name};
    }
  }
}
