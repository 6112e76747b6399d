/** The `usePermissions` hook: how the statuses of the five runtime
    permissions and the default-SMS-app answer combine into the flags the
    app shows and the single yes/no it gates onboarding on. The statuses
    are inputs; `None` stands for a check, request or native call that
    throws. */
module Permissions {
  import opened Common

  /** `RESULTS` of `react-native-permissions`. */
  datatype PermissionStatus = Unavailable | Denied | Limited | Granted | Blocked

  /** `s === RESULTS.GRANTED || s === RESULTS.LIMITED`. */
  predicate IsGranted(s: PermissionStatus)
  {
    s == Granted || s == Limited
  }

  /** `statuses.every(IsGranted)`. */
  function Every(statuses: seq<PermissionStatus>): (r: bool)
    ensures r <==> forall i :: 0 <= i < |statuses| ==> IsGranted(statuses[i])
    decreases |statuses|
  {
    if |statuses| == 0 then true
    else IsGranted(statuses[0]) && Every(statuses[1..])
  }

  /** The answers for READ_SMS, RECEIVE_SMS, SEND_SMS, READ_PHONE_STATE and
      READ_CONTACTS. */
  datatype Statuses = Statuses(readSms: PermissionStatus, receiveSms: PermissionStatus,
                               sendSms: PermissionStatus, phone: PermissionStatus,
                               contacts: PermissionStatus)

  /** `PermissionState`. */
  datatype PermissionState = PermissionState(sms: bool, phone: bool, contacts: bool, isDefault: bool)

  const NothingGranted := PermissionState(false, false, false, false)

  /** The object passed to `setPermissions`. */
  function Aggregate(st: Statuses, isDefault: bool): (p: PermissionState)
    ensures p.sms <==> IsGranted(st.readSms) && IsGranted(st.receiveSms) && IsGranted(st.sendSms)
    ensures p.phone <==> IsGranted(st.phone)
    ensures p.contacts <==> IsGranted(st.contacts)
    ensures p.isDefault == isDefault
  {
    var sms := [st.readSms, st.receiveSms, st.sendSms];
    assert sms[0] == st.readSms && sms[1] == st.receiveSms && sms[2] == st.sendSms;
    PermissionState(Every(sms), IsGranted(st.phone), IsGranted(st.contacts), isDefault)
  }

  /** `sms && phone && contacts && isDefault`. */
  predicate AllGranted(p: PermissionState)
  {
    p.sms && p.phone && p.contacts && p.isDefault
  }

  /** The hook answers yes exactly when every one of the five permissions
      is granted or limited and the app is the default SMS app. */
  lemma AggregateVerdict(st: Statuses, isDefault: bool)
    ensures AllGranted(Aggregate(st, isDefault)) <==>
              IsGranted(st.readSms) && IsGranted(st.receiveSms) && IsGranted(st.sendSms) &&
              IsGranted(st.phone) && IsGranted(st.contacts) && isDefault
  {
  }

  /** A single denied, blocked or unavailable SMS permission is enough to
      answer no. */
  lemma OneSmsRefusalSuffices(st: Statuses, isDefault: bool)
    requires !IsGranted(st.readSms) || !IsGranted(st.receiveSms) || !IsGranted(st.sendSms)
    ensures !Aggregate(st, isDefault).sms && !AllGranted(Aggregate(st, isDefault))
  {
  }

  class PermissionsHook {
    var permissions: PermissionState
    var loading: bool

    /** The hook's initial `useState` values. */
    constructor ()
      ensures permissions == NothingGranted && loading
    {
      permissions := NothingGranted;
      loading := true;
    }

    /** `checkPermissions()`. `checked` is `None` when a `check` throws; the
        default-app probe is hard-coded to `false`, so the answer is never
        yes. */
    method CheckPermissions(checked: Option<Statuses>) returns (granted: bool)
      modifies this
      ensures !loading && !granted
      ensures checked.Some? ==> permissions == Aggregate(checked.value, false)
      ensures checked.None? ==> permissions == old(permissions)
      ensures granted == (checked.Some? && AllGranted(permissions))
    {
      if checked.None? {
        loading := false;
        granted := false;
        return;
      }
      permissions := Aggregate(checked.value, false);
      loading := false;
      granted := AllGranted(permissions);
    }

    /** `requestPermissions()`. `requested` is `None` when a `request`
        throws, and `isDefault` is `None` when `requestDefaultSmsApp`
        throws; either leaves `permissions` as it was. */
    method RequestPermissions(requested: Option<Statuses>, isDefault: Option<bool>) returns (granted: bool)
      modifies this
      ensures !loading
      ensures requested.Some? && isDefault.Some? ==>
                permissions == Aggregate(requested.value, isDefault.value) && granted == AllGranted(permissions)
      ensures requested.None? || isDefault.None? ==> permissions == old(permissions) && !granted
    {
      if requested.None? || isDefault.None? {
        loading := false;
        granted := false;
        return;
      }
      permissions := Aggregate(requested.value, isDefault.value);
      loading := false;
      granted := AllGranted(permissions);
    }
  }
}
