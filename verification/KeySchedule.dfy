/** Symbolic secrets of the MLS key schedule (section 8 of RFC 9420) and of the exporter tree:
    every derivation is a constructor, so two secrets are equal only if derived alike from equal
    inputs. */
module KeySchedule {
  import opened Prelude

  /** One leaf: the member's credential and its current leaf key. */
  datatype Leaf = Leaf(id: Bytes, key: nat)

  type Roster = map<nat, Leaf>

  /** The combiner's creation-time record of a group pair. */
  datatype ApqInfo = ApqInfo(tGroupId: Bytes, pqGroupId: Bytes, mode: nat, tSuite: nat, pqSuite: nat, tEpoch: U64,
                             pqEpoch: U64)

  /** The GroupContext extensions a combiner group can carry. */
  datatype Extensions = Extensions(apqInfo: Option<ApqInfo>, appBinding: Option<Bytes>)

  datatype Context = Context(groupId: Bytes, epoch: nat, roster: Roster, extensions: Extensions)

  datatype Label = PskIdLabel | PskLabel | SealLabel

  datatype Secret =
    | Fresh(n: nat)
    | Zero
    | EpochSecret(init: Secret, commit: Secret, psks: seq<Secret>, context: Context)
    | ExporterLeaf(epoch: Secret, component: nat)
    | Derived(parent: Secret, purpose: Label)

  /** `x` went into the derivation of `s`. */
  ghost predicate Contains(s: Secret, x: Secret) {
    || s == x
    || match s
       case EpochSecret(init, commit, psks, _) =>
         Contains(init, x) || Contains(commit, x) || exists p | p in psks :: Contains(p, x)
       case ExporterLeaf(epoch, _) => Contains(epoch, x)
       case Derived(parent, _) => Contains(parent, x)
       case _ => false
  }

  lemma {:induction false} ContainsIsTransitive(s: Secret, t: Secret, x: Secret)
    requires Contains(s, t) && Contains(t, x)
    ensures Contains(s, x)
    decreases s
  {
    if s != t {
      match s
      case EpochSecret(init, commit, psks, _) =>
        if Contains(init, t) {
          ContainsIsTransitive(init, t, x);
        } else if Contains(commit, t) {
          ContainsIsTransitive(commit, t, x);
        } else {
          var p :| p in psks && Contains(p, t);
          ContainsIsTransitive(p, t, x);
        }
      case ExporterLeaf(epoch, _) => ContainsIsTransitive(epoch, t, x);
      case Derived(parent, _) => ContainsIsTransitive(parent, t, x);
    }
  }
}
