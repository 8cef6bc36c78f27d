/** Admission webhooks (internal/controller/service/volume_validator.go and sandbox_webhook.go). */
module Admission {
  import opened Types
  import opened Names
  import opened Volumes
  import opened Backends

  /** VolumesValidator.Validate: names are accepted exactly when they are pairwise distinct. */
  method ValidateVolumes(spec: TemplateSpec) returns (ok: bool)
    ensures ok <==> DistinctNames(spec.volumes)
  {
    var volumeMap: set<string> := {};
    for i := 0 to |spec.volumes|
      invariant DistinctNames(spec.volumes[..i])
      invariant volumeMap == set j | 0 <= j < i :: spec.volumes[j].name
    {
      var volume := spec.volumes[i];
      if volume.name in volumeMap {
        return false;
      }
      volumeMap := volumeMap + {volume.name};
    }
    assert spec.volumes[..|spec.volumes|] == spec.volumes;
    return true;
  }

  predicate VolumeGateOpen(gates: set<Gate>, v: Volume) {
    if v.dataVolume.Some? then KubevirtGate in gates
    else v.virtualDisk.Some? ==> DVPGate in gates
  }

  predicate WorkloadGateOpen(gates: set<Gate>, spec: TemplateSpec) {
    if spec.vmi.Some? then KubevirtGate in gates
    else spec.vm.Some? ==> DVPGate in gates
  }

  /** TypeValidator.Validate */
  method ValidateType(gates: set<Gate>, spec: TemplateSpec) returns (ok: bool)
    ensures ok <==> WorkloadGateOpen(gates, spec) &&
                    forall i :: 0 <= i < |spec.volumes| ==> VolumeGateOpen(gates, spec.volumes[i])
  {
    if spec.vmi.Some? {
      if KubevirtGate !in gates {
        return false;
      }
    } else if spec.vm.Some? {
      if DVPGate !in gates {
        return false;
      }
    }
    for i := 0 to |spec.volumes|
      invariant forall j :: 0 <= j < i ==> VolumeGateOpen(gates, spec.volumes[j])
    {
      var volume := spec.volumes[i];
      if volume.dataVolume.Some? {
        if KubevirtGate !in gates {
          return false;
        }
      } else if volume.virtualDisk.Some? {
        if DVPGate !in gates {
          return false;
        }
      }
    }
    return true;
  }

  /** Both validators accept the spec. */
  ghost predicate Admitted(gates: set<Gate>, spec: TemplateSpec) {
    && DistinctNames(spec.volumes)
    && WorkloadGateOpen(gates, spec)
    && forall i :: 0 <= i < |spec.volumes| ==> VolumeGateOpen(gates, spec.volumes[i])
  }

  /** The webhook looks at an inline spec only; a Sandbox that names a template is accepted as it is. */
  method ValidateSandboxCreate(gates: set<Gate>, spec: SandboxSpec) returns (ok: bool)
    ensures ok <==> spec.templateSpec.None? || Admitted(gates, spec.templateSpec.value)
  {
    if spec.templateSpec.Some? {
      ok := ValidateVolumes(spec.templateSpec.value);
      if !ok {
        return;
      }
      ok := ValidateType(gates, spec.templateSpec.value);
    } else {
      ok := true;
    }
  }

  /** Every child an admitted spec asks for has a name of its own, and the detected backend passes its gate; this
      includes specs that set two workload kinds and volume lists of any length. */
  lemma AdmissionSound(gates: set<Gate>, spec: TemplateSpec, u: Uid, namespace: string)
    requires Admitted(gates, spec)
    ensures GateOpen(gates, DetectSandboxType(Some(spec)))
    ensures forall kind | IsVolume(kind) :: DistinctKeys(MakeVolumes(u, namespace, kind, spec.volumes))
    ensures forall kind1, kind2, i, j
      | IsVolume(kind1) && IsVolume(kind2) && kind1 != kind2
        && 0 <= i < |MakeVolumes(u, namespace, kind1, spec.volumes)|
        && 0 <= j < |MakeVolumes(u, namespace, kind2, spec.volumes)| ::
      MakeVolumes(u, namespace, kind1, spec.volumes)[i].key.name
      != MakeVolumes(u, namespace, kind2, spec.volumes)[j].key.name
  {
    forall kind | IsVolume(kind)
      ensures DistinctKeys(MakeVolumes(u, namespace, kind, spec.volumes))
    {
      MadeDistinct(u, namespace, kind, spec.volumes);
    }
    forall kind1, kind2, i, j
      | IsVolume(kind1) && IsVolume(kind2) && kind1 != kind2
        && 0 <= i < |MakeVolumes(u, namespace, kind1, spec.volumes)|
        && 0 <= j < |MakeVolumes(u, namespace, kind2, spec.volumes)|
      ensures MakeVolumes(u, namespace, kind1, spec.volumes)[i].key.name
           != MakeVolumes(u, namespace, kind2, spec.volumes)[j].key.name
    {
      var a := MakeVolumes(u, namespace, kind1, spec.volumes)[i].key.name;
      var b := MakeVolumes(u, namespace, kind2, spec.volumes)[j].key.name;
      MadeFrom(u, namespace, kind1, spec.volumes);
      MadeFrom(u, namespace, kind2, spec.volumes);
      var n :| 0 <= n < |spec.volumes| && a == VolumeName(kind1, u, spec.volumes[n].name);
      var m :| 0 <= m < |spec.volumes| && b == VolumeName(kind2, u, spec.volumes[m].name);
      if a == b {
        VolumeNameInjective(kind1, u, spec.volumes[n].name, kind2, u, spec.volumes[m].name);
      }
    }
  }

  // ---------------------------------------------------------------- defaulting

  const SECOND: int := 1_000_000_000
  const HOUR: int := 3600 * SECOND

  /** The spec after defaulting. */
  function Defaulted(spec: SandboxSpec): SandboxSpec {
    if spec.ttl == 0 then spec.(ttl := HOUR) else spec
  }

  /** A spec has gone through the defaulter exactly when its TTL is not zero, and going through again changes
      nothing. */
  lemma DefaultedExactly(spec: SandboxSpec)
    ensures (exists submitted: SandboxSpec :: spec == Defaulted(submitted)) <==> spec.ttl != 0
    ensures spec.ttl != 0 <==> spec == Defaulted(spec)
  {
    assert spec.ttl != 0 ==> spec == Defaulted(spec);
  }

  /** Defaulter.Default assigns the TTL of the Sandbox being admitted. */
  class AdmittedSandbox {
    var spec: SandboxSpec

    constructor (spec: SandboxSpec)
      ensures this.spec == spec
    {
      this.spec := spec;
    }

    method Default()
      modifies this
      ensures spec.ttl != 0 && spec == Defaulted(old(spec))
      ensures old(spec.ttl) != 0 ==> spec == old(spec)
      ensures old(spec.ttl) == 0 ==> spec == old(spec).(ttl := 3_600_000_000_000)
    {
      if spec.ttl == 0 {
        spec := spec.(ttl := HOUR);
      }
    }
  }
}
