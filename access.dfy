/**
 * The read-only records the access broker hands to connect.cpp, and the
 * three values derived from them by the `get_user`, `get_uid` and `get_cmd`
 * macros.
 */
module Access {
  import opened CArith

  /** Values of the multiuser-mode setting (the settings database header is
   *  not part of this model; only their being distinct matters here). */
  const MULTIUSER_MODE_OWNER_ONLY: int := 0
  const MULTIUSER_MODE_OWNER_MANAGED: int := 1
  const MULTIUSER_MODE_USER: int := 2

  /** Each Android user owns a block of this many uids. */
  const PER_USER_RANGE: int := 100000

  /** The shell used when the request names neither a command nor a shell
   *  (defined in su.h, which is not part of this model). */
  const DEFAULT_SHELL: string := "/system/bin/sh"

  /** The fields of `su_info` that connect.cpp reads. */
  datatype SuInfo = SuInfo(
    uid: CInt,             // the requesting uid
    multiuserMode: int,    // cfg[SU_MULTIUSER_MODE]
    manager: string,       // str[SU_MANAGER], the manager's package name
    policy: CInt,          // access.policy
    notify: CInt           // access.notify
  )

  /** The fields of the client's request that connect.cpp reads. */
  datatype SuRequest = SuRequest(
    uid: CInt,             // the uid the request asks to run as
    shell: string,         // the shell asked for, "" when none
    command: string        // the command asked for, "" when none
  )

  /** `get_user`: the Android user the manager is started for. In per-user
   *  mode that is the user whose uid block holds the uid (C division,
   *  truncating toward zero); otherwise the owner, user 0. */
  function GetUser(info: SuInfo): (user: CInt)
    ensures info.multiuserMode != MULTIUSER_MODE_USER ==> user == 0
    ensures info.multiuserMode == MULTIUSER_MODE_USER && info.uid >= 0 ==>
      user * PER_USER_RANGE <= info.uid < (user + 1) * PER_USER_RANGE
    ensures info.multiuserMode == MULTIUSER_MODE_USER && info.uid < 0 ==>
      (user - 1) * PER_USER_RANGE < info.uid <= user * PER_USER_RANGE
  {
    if info.multiuserMode == MULTIUSER_MODE_USER then CDiv(info.uid, PER_USER_RANGE) else 0
  }

  /** `get_uid`: the uid reported to the manager. In owner-managed mode it is
   *  the uid's offset inside its user block (C remainder, taking the uid's
   *  sign); otherwise the uid itself. */
  function GetUid(info: SuInfo): (uid: CInt)
    ensures info.multiuserMode != MULTIUSER_MODE_OWNER_MANAGED ==> uid == info.uid
    ensures info.multiuserMode == MULTIUSER_MODE_OWNER_MANAGED ==>
      (info.uid - uid) % PER_USER_RANGE == 0 &&
      (info.uid >= 0 ==> 0 <= uid < PER_USER_RANGE) &&
      (info.uid < 0 ==> -PER_USER_RANGE < uid <= 0)
  {
    if info.multiuserMode == MULTIUSER_MODE_OWNER_MANAGED then CRem(info.uid, PER_USER_RANGE) else info.uid
  }

  /** The user selector and the normalised uid split a uid into its user
   *  block and its offset: together they give the uid back. */
  lemma UserAndOffsetRecombine(info: SuInfo)
    ensures GetUser(info.(multiuserMode := MULTIUSER_MODE_USER)) * PER_USER_RANGE
            + GetUid(info.(multiuserMode := MULTIUSER_MODE_OWNER_MANAGED)) == info.uid
  {
  }

  /** The worked values for uid 1000050 (user 10, app offset 50). */
  lemma Uid1000050(info: SuInfo)
    requires info.uid == 1000050
    ensures info.multiuserMode == MULTIUSER_MODE_USER ==> GetUser(info) == 10
    ensures info.multiuserMode == MULTIUSER_MODE_OWNER_ONLY ==> GetUser(info) == 0
    ensures info.multiuserMode == MULTIUSER_MODE_OWNER_MANAGED ==> GetUid(info) == 50
    ensures info.multiuserMode != MULTIUSER_MODE_OWNER_MANAGED ==> GetUid(info) == 1000050
  {
  }

  /** `get_cmd`: the command if one was given, else the shell if one was
   *  given, else the default shell; exactly one of them, never combined. */
  function GetCmd(req: SuRequest): (cmd: string)
    ensures cmd != ""
    ensures cmd == req.command || cmd == req.shell || cmd == DEFAULT_SHELL
    ensures req.command != "" ==> cmd == req.command
    ensures req.command == "" && req.shell != "" ==> cmd == req.shell
    ensures req.command == "" && req.shell == "" ==> cmd == DEFAULT_SHELL
  {
    if req.command != "" then req.command
    else if req.shell != "" then req.shell
    else DEFAULT_SHELL
  }
}
