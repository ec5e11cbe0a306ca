/** The community's backup and security settings: a backup chosen in a
    table by toggling, restore and delete of the chosen backup guarded by a
    selection, the request built for a scheduled backup, the encryption
    switch, and the disabled state of the restore and delete buttons. */
module SecuritySettings {
  import opened Common

  datatype ScheduleType = OneTime | Recurring
  datatype Frequency = Daily | Alternate | Weekly

  /** `handleBackupSelection`'s updater: selecting the selected backup clears
      the selection, selecting any other backup replaces it. */
  function ToggleSelection(prev: Option<string>, id: string): (r: Option<string>)
    ensures r == None <==> prev == Some(id)
    ensures r != None ==> r == Some(id)
  {
    if prev == Some(id) then None else Some(id)
  }

  /** Selecting the same backup twice gives back the previous selection
      exactly when nothing or that backup was selected; when another backup
      was selected, it ends with nothing selected. */
  lemma ToggleTwice(prev: Option<string>, id: string)
    ensures ToggleSelection(ToggleSelection(prev, id), id) == prev <==> prev == None || prev == Some(id)
    ensures prev != None && prev != Some(id) ==> ToggleSelection(ToggleSelection(prev, id), id) == None
  {
  }

  /** The radio button of a backup row is checked exactly for the selected
      backup, so at most one row is checked. */
  predicate Checked(selected: Option<string>, backupId: string) {
    selected == Some(backupId)
  }

  lemma AtMostOneChecked(selected: Option<string>, a: string, b: string)
    requires Checked(selected, a) && Checked(selected, b)
    ensures a == b
  {
  }

  /** Restore and delete are disabled while nothing (or an empty id) is
      selected or while that mutation is in flight. */
  function ActionDisabled(selected: Option<string>, loading: bool): (r: bool)
    ensures !r <==> Truthy(selected) && !loading
  {
    !Truthy(selected) || loading
  }

  /** The variables of the schedule-backup mutation: a recurring backup
      carries a frequency and no date, a one-time backup a date and no
      frequency; both carry the type and the time. */
  datatype ScheduleRequest = ScheduleRequest(kind: ScheduleType, frequency: Option<Frequency>,
                                             date: Option<string>, time: string)

  function ScheduleVariables(kind: ScheduleType, frequency: Frequency, date: string, time: string): (r: ScheduleRequest)
    ensures r.kind == kind && r.time == time
    ensures r.kind == Recurring ==> r.frequency == Some(frequency) && r.date == None
    ensures r.kind == OneTime ==> r.date == Some(date) && r.frequency == None
  {
    if kind == Recurring then ScheduleRequest(kind, Some(frequency), None, time)
    else ScheduleRequest(kind, None, Some(date), time)
  }

  class Settings {
    var selectedBackup: Option<string>
    var encryption: bool
    var showScheduleModal: bool
    var scheduleType: ScheduleType
    var scheduleFrequency: Frequency
    var scheduleDate: string
    var scheduleTime: string

    constructor ()
      ensures selectedBackup == None && !encryption && !showScheduleModal
      ensures scheduleType == OneTime && scheduleFrequency == Daily
      ensures scheduleDate == "" && scheduleTime == "00:00"
    {
      selectedBackup := None;
      encryption := false;
      showScheduleModal := false;
      scheduleType := OneTime;
      scheduleFrequency := Daily;
      scheduleDate := "";
      scheduleTime := "00:00";
    }

    method SelectBackup(id: string)
      modifies this`selectedBackup
      ensures selectedBackup == ToggleSelection(old(selectedBackup), id)
    {
      selectedBackup := ToggleSelection(selectedBackup, id);
    }

    /** `handleRestore`: with no truthy selection no mutation is issued and
        nothing changes. Otherwise the selected id is sent, and a truthy
        result clears the selection; a falsy result or an error keeps it. */
    method Restore(result: Outcome) returns (sent: Option<string>)
      modifies this`selectedBackup
      ensures sent == if Truthy(old(selectedBackup)) then old(selectedBackup) else None
      ensures selectedBackup == if sent.Some? && result.Succeeded() then None else old(selectedBackup)
    {
      if !Truthy(selectedBackup) {
        sent := None;
        return;
      }
      sent := selectedBackup;
      if result.Succeeded() {
        selectedBackup := None;
      }
    }

    /** `handleDelete`: the same guard and the same effect on the selection
        as a restore, with the delete mutation. */
    method Delete(result: Outcome) returns (sent: Option<string>)
      modifies this`selectedBackup
      ensures sent == if Truthy(old(selectedBackup)) then old(selectedBackup) else None
      ensures selectedBackup == if sent.Some? && result.Succeeded() then None else old(selectedBackup)
    {
      if !Truthy(selectedBackup) {
        sent := None;
        return;
      }
      sent := selectedBackup;
      if result.Succeeded() {
        selectedBackup := None;
      }
    }

    method OpenScheduleModal()
      modifies this`showScheduleModal
      ensures showScheduleModal
    {
      showScheduleModal := true;
    }

    method CloseScheduleModal()
      modifies this`showScheduleModal
      ensures !showScheduleModal
    {
      showScheduleModal := false;
    }

    method SetScheduleType(kind: ScheduleType)
      modifies this`scheduleType
      ensures scheduleType == kind
    {
      scheduleType := kind;
    }

    method SetScheduleFrequency(frequency: Frequency)
      modifies this`scheduleFrequency
      ensures scheduleFrequency == frequency
    {
      scheduleFrequency := frequency;
    }

    method SetScheduleDate(date: string)
      modifies this`scheduleDate
      ensures scheduleDate == date
    {
      scheduleDate := date;
    }

    method SetScheduleTime(time: string)
      modifies this`scheduleTime
      ensures scheduleTime == time
    {
      scheduleTime := time;
    }

    /** `handleScheduledBackup`: the request is built from the form, and the
        modal closes only on a truthy result. */
    method ScheduleBackup(result: Outcome) returns (sent: ScheduleRequest)
      modifies this`showScheduleModal
      ensures sent == ScheduleVariables(scheduleType, scheduleFrequency, scheduleDate, scheduleTime)
      ensures showScheduleModal == if result.Succeeded() then false else old(showScheduleModal)
    {
      sent := ScheduleVariables(scheduleType, scheduleFrequency, scheduleDate, scheduleTime);
      if result.Succeeded() {
        showScheduleModal := false;
      }
    }

    method ToggleEncryption()
      modifies this`encryption
      ensures encryption == !old(encryption)
    {
      encryption := !encryption;
    }
  }

  /** Two encryption toggles give back the original flag, and selecting a
      backup twice from an empty selection leaves nothing selected. */
  method ToggleScenario(id: string)
  {
    var s := new Settings();
    s.ToggleEncryption();
    s.ToggleEncryption();
    assert !s.encryption;
    s.SelectBackup(id);
    assert s.selectedBackup == Some(id);
    s.SelectBackup(id);
    assert s.selectedBackup == None;
    var sent := s.Restore(Resolved(true));
    assert sent == None && s.selectedBackup == None;
  }
}
