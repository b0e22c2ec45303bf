/** Guarded updates of one row, each a single SQL statement of the database
    layer. A guard that does not hold leaves the row as it is. */
module Rows {
  import opened Types

  // ---- volumes ----

  function RecordLocation(v: Volume, l: Location): Volume { v.(loc := l) }

  function RequestAttach(v: Volume, i: InstanceId, device: nat): Volume {
    v.(instance := Some(i), device := Some(device), attachment := Some(Attaching),
       pending := Some(Attach), attempts := 0)
  }

  function RequestDetach(v: Volume): Volume {
    v.(attachment := Some(Detaching), pending := Some(Detach), attempts := 0)
  }

  function RequestResize(v: Volume, size: nat): Volume {
    v.(size := size, pending := Some(Resize), attempts := 0)
  }

  function RequestDelete(v: Volume): Volume {
    v.(state := Deleting, pending := Some(Delete), attempts := 0)
  }

  function FinishVolumeAction(v: Volume, action: VolumeAction): Volume {
    if v.pending != Some(action) then v else
      v.(pending := None, attempts := 0,
         state := match action
                  case Create => Available
                  case Attach => InUse
                  case Detach => Available
                  case Delete => Deleted
                  case Resize => v.state,
         attachment := match action
                       case Attach => Some(Attached)
                       case Detach => None
                       case _ => v.attachment,
         instance := if action.Detach? then None else v.instance,
         device := if action.Detach? then None else v.device)
  }

  function RetryVolumeLater(v: Volume, action: VolumeAction): Volume {
    if v.pending != Some(action) then v else v.(attempts := v.attempts + 1)
  }

  function GiveUpCreate(v: Volume): Volume {
    if v.pending != Some(Create) then v else v.(state := VolumeError, pending := None, attempts := 0)
  }

  function GiveUpAttach(v: Volume): Volume {
    if v.pending != Some(Attach) then v else
      v.(attachment := Some(Detaching), pending := Some(Detach), attempts := 0)
  }

  function GiveUpResize(v: Volume, actual: nat): Volume {
    if v.pending != Some(Resize) then v else v.(size := actual, pending := None, attempts := 0)
  }

  function ReturnToHolder(v: Volume, l: Location): Volume {
    var over := v.pending == Some(Attach) || v.pending == Some(Detach);
    v.(instance := None, device := None, attachment := None,
       state := if v.state.InUse? then Available else v.state,
       pending := if over then None else v.pending,
       attempts := if over then 0 else v.attempts,
       loc := l.(moveVmid := None, moveKey := None))
  }

  // ---- instances ----

  function SetAction(i: Instance, state: InstanceState, action: InstanceAction): Instance {
    i.(state := state, pending := Some(action), attempts := 0)
  }

  function FinishAction(i: Instance, action: InstanceAction, state: InstanceState): Instance {
    if i.pending != Some(action) then i else i.(state := state, pending := None, attempts := 0)
  }

  function RetryLater(i: Instance, action: InstanceAction): Instance {
    if i.pending != Some(action) then i else i.(attempts := i.attempts + 1)
  }

  function AbandonLaunch(i: Instance): Instance {
    if i.pending != Some(Launch) then i else
      i.(state := ShuttingDown, pending := Some(Terminate), attempts := 0)
  }

  function GiveUpAction(i: Instance, action: InstanceAction, state: InstanceState): Instance {
    if i.pending != Some(action) then i else i.(state := state, pending := None, attempts := 0)
  }

  function RecordResources(
    i: Instance, vmid: Option<VmId>, created: bool, address: Option<AddressId>, seed: bool): Instance
  {
    i.(vmid := vmid, vmCreated := created, address := address, seed := seed)
  }
}
