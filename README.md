# Publish over FTP: the FTP session layer

This project models, in Dafny, the session layer of the Jenkins *Publish
over FTP* plugin. It covers both of the plugin's generations:

- the current package, `jenkins.plugins.publish_over_ftp`;
- the legacy package, `hudson.plugins.bap_ftp`.

The session layer has two halves:

- **Opening a session.** A host configuration's `createClient` / `init`:
  - sets the timeouts, and the control encoding when one is configured;
  - connects and requires a 2xx greeting;
  - chooses active or passive data mode;
  - logs in with the command listener detached;
  - enters the configured root directory when it is not blank;
  - settles the absolute remote root, which is the configured root when that
    is absolute and otherwise the server's working directory.

  An IOException while opening becomes one "failed to create client" error.
- **Working in a session.** A client's directory wrappers (CWD, MKD), the
  choice of transfer type, storing a file, closing the session, and, in the
  current package only, the recursive deletion of a remote directory's
  contents.

## How the model is built

The FTP endpoint is `Ftp.FtpServer`. It stands for the Apache Commons Net
`FTPClient` together with the server behind it:

- every call the plugin makes on the client is appended to its `trace`,
  including the local ones (timeouts, data mode, listeners, reply getters).
  The one exception is the base helper `exception(client, message)`: it
  receives the client, but only the error it raises is modelled (see the
  base-class line under "## Left out"), so a trace that ends at a refusal
  is the model's and may omit calls that helper makes;
- the server answers from a fixed `Script` and from a finite remote tree
  (`Folder` / `Entry`), in which every folder and file carries the reply the
  server gives to the command about it;
- a reply is either a value or a `Fault`: an IOException, a
  RuntimeException or a java.lang.Error.

The layers above it:

- **Clients** (`Client.BapFtpClient`, `LegacyClient.BapFtpClient`) are
  classes over the endpoint. Each method states the calls it adds to the
  trace, its outcome, and the cursor it leaves.
- **Recursive deletion.** `Client.BapFtpClient.DeleteTree` and its helpers
  are proved against the pure `Purge.PurgeFolder`. The lemmas relate
  `PurgeFolder` to an independent reference, `Purge.Plan`, which is the calls
  made when the server accepts everything.
- **Opening a session.** All three host configurations run the same staged
  methods of `Setup`. Each stage is proved against a stage function of
  `SessionPlan`, and `Setup.Open` is proved against the whole
  `SessionPlan.RunSetup`. The lemmas relate `RunSetup` to the reference
  `SessionPlan.SetupPlan`.
- **How the configurations differ.** `FtpHostConfiguration`,
  `HostConfiguration` and `LegacyHostConfiguration` differ only in:
  - the `SetupParams` they derive (trimmed host or not, control encoding,
    override credentials);
  - how they report a failure to open a session.

  `Generations` states these differences.

Two behaviours of the code are easy to misread:

- **Absoluteness is tested without trimming.** A root is tested with
  `startsWith("/")` / `startsWith("\\")` on the value as written (legacy
  `isDirAbsolute`). A root written `" /pub"` is therefore relative: it is
  sent to CWD and then resolved through PWD
  (`SessionPlan.LeadingBlankRootIsRelative`).
- **The current quiet close does not swallow a java.lang.Error.** The
  current `disconnectQuietly` catches `Exception`, so an Error still gets
  through. Only the legacy one catches every `Throwable`.

## Model

Paths in the source column are relative to the repository root.

| member | source | states |
|---|---|---|
| Text.Trim | src/main/java/jenkins/plugins/publish_over_ftp/BapFtpHostConfiguration.java:171 | String.trim as used for the host name: the result is empty or starts and ends with a character above U+0020 (what it keeps is stated by TrimSpec) |
| Text.TrimSpec | src/main/java/jenkins/plugins/publish_over_ftp/BapFtpHostConfiguration.java:171 | the trimmed string is a slice s[i..j] of the input, and every character before i and from j on is at or below U+0020 |
| Text.TrimStartSpec | src/main/java/jenkins/plugins/publish_over_ftp/BapFtpHostConfiguration.java:171 | dropping leading blanks keeps a suffix of the input that starts with a printable character, and everything dropped is at or below U+0020 |
| Text.TrimEndSpec | src/main/java/jenkins/plugins/publish_over_ftp/BapFtpHostConfiguration.java:171 | dropping trailing blanks keeps a prefix of the input that ends with a printable character, and everything dropped is at or below U+0020 |
| Text.TrimIdempotent | src/main/java/jenkins/plugins/publish_over_ftp/BapFtpHostConfiguration.java:70 | trimming a trimmed string changes nothing |
| Text.TrimEmptyIffBlank | src/main/java/hudson/plugins/bap_ftp/BapFtpHostConfiguration.java:108 | a string trims to "" exactly when all its characters are blank, which is the blank-root test of changeToRootDirectory |
| Text.FixEmptyAndTrim | src/main/java/jenkins/plugins/publish_over_ftp/BapFtpHostConfiguration.java:70 | absent exactly when the input is null, empty or blank; otherwise the trimmed input, which is non-empty and printable at both ends |
| Text.FixEmptyAndTrimIdempotent | src/main/java/jenkins/plugins/publish_over_ftp/BapFtpHostConfiguration.java:70 | normalising a stored control encoding again changes nothing |
| Text.IsBlank | src/main/java/hudson/plugins/bap_ftp/BapFtpHostConfiguration.java:108 | the blank-root test: null, or every character at or below U+0020 (its relation to trim is TrimEmptyIffBlank) |
| PublishOver.Wrap | src/main/java/jenkins/plugins/publish_over_ftp/BapFtpClient.java:69-75 | a handler for IOException turns exactly an IOException into a BapPublisherException with the given message and the fault as its cause; any other fault propagates unchanged |
| SessionPlan.AbsoluteIsNotBlank | src/main/java/hudson/plugins/bap_ftp/BapFtpHostConfiguration.java:100-104 | an absolute directory is never null or blank, so an absolute root is always entered by CWD |
| SessionPlan.IsDirAbsolute | src/main/java/hudson/plugins/bap_ftp/BapFtpHostConfiguration.java:100-104 | isDirAbsolute: not null and starting with "/" or "\\", on the value as written |
| SessionPlan.LeadingBlankRootIsRelative | src/main/java/hudson/plugins/bap_ftp/BapFtpHostConfiguration.java:100-113 | isDirAbsolute does not trim: " /pub" is not absolute, yet it is not blank either |
| SessionPlan.ConnectStage | src/main/java/jenkins/plugins/publish_over_ftp/BapHostConfiguration.java:140-148 | connect issues a prefix of CONNECT, reply code, data mode; it succeeds exactly when the connection raises nothing and the reply code is 2xx, and then issues all three |
| SessionPlan.LoginStage | src/main/java/jenkins/plugins/publish_over_ftp/BapHostConfiguration.java:124-138 | login issues a prefix of its calls (detach, LOGIN, re-attach); it succeeds exactly when the server accepts the credentials, and only then re-attaches the listener |
| SessionPlan.RootCwdStage | src/main/java/hudson/plugins/bap_ftp/BapFtpHostConfiguration.java:106-113 | CWD to the root is issued exactly when the root is not blank, with the value as written; the stage succeeds exactly when the root is blank or the CWD is accepted |
| SessionPlan.RootStage | src/main/java/jenkins/plugins/publish_over_ftp/BapHostConfiguration.java:107-122 | PWD is issued exactly when the configured root is not absolute, and a settled root is always absolute |
| SessionPlan.RootRun | src/main/java/jenkins/plugins/publish_over_ftp/BapFtpHostConfiguration.java:123-124 | the end of init: the root stage's CWD, then the settling of the root only if the CWD stage succeeded; the calls are those of both stages |
| SessionPlan.LoginRun | src/main/java/jenkins/plugins/publish_over_ftp/BapFtpHostConfiguration.java:121-124 | login, then RootRun only if the login succeeded |
| SessionPlan.ConnectRun | src/main/java/jenkins/plugins/publish_over_ftp/BapFtpHostConfiguration.java:119-124 | connect, then LoginRun only if the connection succeeded |
| SessionPlan.RunSetup | src/main/java/jenkins/plugins/publish_over_ftp/BapFtpHostConfiguration.java:113-124 | the whole of init: the verbose listener, the client configuration, then ConnectRun, stopping at the first failure |
| SessionPlan.RootCursor | src/main/java/hudson/plugins/bap_ftp/BapFtpHostConfiguration.java:106-113 | the cursor after changeToRootDirectory: in the configured root when it is not blank and the CWD is accepted, otherwise unmoved |
| SessionPlan.SetupCursor | src/main/java/jenkins/plugins/publish_over_ftp/BapFtpHostConfiguration.java:119-124 | the cursor after init: RootCursor once the connection and the login succeed, otherwise unmoved |
| SessionPlan.LoginRunFollowsPlan | src/main/java/jenkins/plugins/publish_over_ftp/BapFtpHostConfiguration.java:121-124 | from the login on, the calls made are a prefix of the planned login and root calls |
| SessionPlan.ConnectRunFollowsPlan | src/main/java/jenkins/plugins/publish_over_ftp/BapFtpHostConfiguration.java:119-124 | from the connection on, the calls made are a prefix of the planned connect, login and root calls |
| SessionPlan.SetupFollowsPlan | src/main/java/jenkins/plugins/publish_over_ftp/BapFtpHostConfiguration.java:109-125 | whatever the server answers, init makes the calls of the plan, in the plan's order, and at most stops early |
| SessionPlan.SetupSucceedsIffAccepted | src/main/java/jenkins/plugins/publish_over_ftp/BapFtpHostConfiguration.java:109-148 | init succeeds exactly when the server accepts every step; it then made every planned call and settled on the configured root if that is absolute, otherwise on the PWD reply, which is absolute |
| SessionPlan.OpenSessionStandsInRoot | src/main/java/jenkins/plugins/publish_over_ftp/BapFtpHostConfiguration.java:109-125 | once init succeeds, the cursor stands in the configured root when it is not blank, and where it started otherwise: the folder a later deleteTree empties |
| SessionPlan.ConnectRefusedStopsBeforeLogin | src/main/java/jenkins/plugins/publish_over_ftp/BapHostConfiguration.java:140-147 | a greeting that is not 2xx fails with the host, port and reply code, and the calls end at the reply code: no data mode, no login |
| SessionPlan.LoginRefusedLeavesListenerDetached | src/main/java/jenkins/plugins/publish_over_ftp/BapHostConfiguration.java:124-138 | a refused login fails naming only the user, the calls end at LOGIN, and the listener stays detached |
| SessionPlan.SetupPlanIsOrdered | src/main/java/jenkins/plugins/publish_over_ftp/BapFtpHostConfiguration.java:109-131 | the plan configures, connects, reads the reply code, chooses the data mode, logs in, then does CWD and PWD, never going back a phase |
| SessionPlan.ListenerDetachedAtLogin | src/main/java/jenkins/plugins/publish_over_ftp/BapFtpHostConfiguration.java:150-167 | at the plan's LOGIN the command listener is never attached; at the end it is attached exactly for a verbose build |
| SessionPlan.LoginListener | src/main/java/jenkins/plugins/publish_over_ftp/BapFtpHostConfiguration.java:150-167 | a bare login attempt leaves the listener detached; a completed login restores the build's listener state |
| SessionPlan.ListenerAfterSetup | src/main/java/jenkins/plugins/publish_over_ftp/BapFtpHostConfiguration.java:109-125 | whatever the server answers, after init the listener is attached exactly for a verbose build whose session stopped before the login or got through it |
| SessionPlan.ListenerAfterConnect | src/main/java/jenkins/plugins/publish_over_ftp/BapFtpHostConfiguration.java:119-124 | the listener state across connect, login and root: as above, starting from the build's state |
| SessionPlan.ListenerAfterLogin | src/main/java/jenkins/plugins/publish_over_ftp/BapFtpHostConfiguration.java:121-124 | across login and root, the listener ends attached exactly for a verbose build whose login was accepted |
| SessionPlan.RootListener | src/main/java/jenkins/plugins/publish_over_ftp/BapFtpHostConfiguration.java:123-124 | entering and settling the root never touches the listener |
| SessionPlan.LoginInPlan | src/main/java/jenkins/plugins/publish_over_ftp/BapFtpHostConfiguration.java:157-160 | the plan's only LOGIN sends the session's user name and password, both of them |
| SessionPlan.ConnectInPlan | src/main/java/jenkins/plugins/publish_over_ftp/BapFtpHostConfiguration.java:169-171 | the plan's only CONNECT goes to the session's host and port |
| SessionPlan.RootCommandsFollowRoot | src/main/java/hudson/plugins/bap_ftp/BapFtpHostConfiguration.java:83-113 | CWD is made exactly when the root is not blank, with the value as written; PWD exactly when the root is not absolute |
| SessionPlan.ClientSettingsFollowConfiguration | src/main/java/jenkins/plugins/publish_over_ftp/BapFtpHostConfiguration.java:127-185 | the control encoding is set exactly when one is configured; active mode is entered exactly when useActiveData, passive mode otherwise |
| Setup.Configure | src/main/java/jenkins/plugins/publish_over_ftp/BapFtpHostConfiguration.java:127-131 | the trace gains the default timeout, the data timeout and, when configured, the control encoding |
| Setup.SetDataTransferMode | src/main/java/jenkins/plugins/publish_over_ftp/BapFtpHostConfiguration.java:179-185 | active mode exactly when useActiveData, passive otherwise, in the trace and in the endpoint's mode |
| Setup.Connect | src/main/java/jenkins/plugins/publish_over_ftp/BapFtpHostConfiguration.java:169-177 | follows ConnectStage; succeeds exactly on a 2xx greeting; the endpoint is connected when CONNECT raised nothing, and the mode is chosen only on success |
| Setup.Login | src/main/java/jenkins/plugins/publish_over_ftp/BapFtpHostConfiguration.java:150-167 | follows LoginStage; succeeds exactly when the credentials are accepted; afterwards the listener is attached exactly for a verbose build that logged in |
| Setup.ChangeToRootDirectory | src/main/java/hudson/plugins/bap_ftp/BapFtpHostConfiguration.java:106-113 | follows RootCwdStage; the cursor moves to the root only when a non-blank root is entered, as RootCursor says |
| Setup.GetRootDirectoryFromPwd | src/main/java/jenkins/plugins/publish_over_ftp/BapFtpHostConfiguration.java:141-148 | one PWD; succeeds exactly when the reply is an absolute directory, which is returned; otherwise the PWD fault or "pwd not absolute" naming the reply |
| Setup.RootDirectory | src/main/java/jenkins/plugins/publish_over_ftp/BapFtpHostConfiguration.java:133-139 | follows RootStage: an absolute configured root is returned verbatim with no call; a settled root is always absolute |
| Setup.EnterRoot | src/main/java/jenkins/plugins/publish_over_ftp/BapFtpHostConfiguration.java:123-124 | follows RootRun: CWD to the root, then settle the root, stopping at the first failure; the cursor ends as RootCursor says |
| Setup.LogInAndEnterRoot | src/main/java/jenkins/plugins/publish_over_ftp/BapFtpHostConfiguration.java:121-124 | follows LoginRun, and leaves the listener attached exactly for a verbose build that logged in; the cursor moves as RootCursor says only after a successful login |
| Setup.ConnectAndLogIn | src/main/java/jenkins/plugins/publish_over_ftp/BapFtpHostConfiguration.java:119-124 | follows ConnectRun; on success the endpoint is connected in the configured data mode; the cursor ends as SetupCursor says |
| Setup.Open | src/main/java/jenkins/plugins/publish_over_ftp/BapFtpHostConfiguration.java:113-124 | the trace gains exactly RunSetup's calls and the result is RunSetup's outcome; the listener and data mode end as above and the cursor as SetupCursor says |
| Purge.PurgeFolder | src/main/java/jenkins/plugins/publish_over_ftp/BapFtpClient.java:91-97 | deleting the contents of a directory changes only its entries: the directory itself is never removed |
| Purge.PurgeEntries | src/main/java/jenkins/plugins/publish_over_ftp/BapFtpClient.java:95-96 | the loop over the listing: each entry in order, stopping at the first failure with the entries not reached left as they are |
| Purge.PurgeEntry | src/main/java/jenkins/plugins/publish_over_ftp/BapFtpClient.java:99-117 | one entry: null fails, "." and ".." are skipped, a file gets DELE, a directory is entered, emptied, left and removed; what is left of the entry |
| Purge.Leave | src/main/java/jenkins/plugins/publish_over_ftp/BapFtpClient.java:109-112 | CDUP, then RMD of the emptied directory; a refused or failing step reports its error and leaves the directory in place |
| Purge.FolderFacts | src/main/java/jenkins/plugins/publish_over_ftp/BapFtpClient.java:91-117 | the calls made are a prefix of the plan; the deletion succeeds exactly when the server accepts every step, and then it made exactly the planned calls and left only "." and ".." |
| Purge.EntriesFacts | src/main/java/jenkins/plugins/publish_over_ftp/BapFtpClient.java:95-96 | the same for the listed entries: they succeed exactly when every entry is accepted |
| Purge.EntryFacts | src/main/java/jenkins/plugins/publish_over_ftp/BapFtpClient.java:99-117 | the same for one entry; a null entry always fails |
| Purge.PurgeEntriesAppend | src/main/java/jenkins/plugins/publish_over_ftp/BapFtpClient.java:95-96 | after entries dealt with successfully, the following entries are dealt with as if alone: their calls and leftovers are appended |
| Purge.PurgeEntriesStep | src/main/java/jenkins/plugins/publish_over_ftp/BapFtpClient.java:95-96 | one more entry dealt with successfully adds its calls, and the directory still holds only "." and ".." |
| Purge.PurgeEntriesStop | src/main/java/jenkins/plugins/publish_over_ftp/BapFtpClient.java:95-96 | the first failing entry ends the deletion with its error, and no call follows it |
| Purge.PlanNeverNamesDots | src/main/java/jenkins/plugins/publish_over_ftp/BapFtpClient.java:103-104 | no planned CWD, RMD or DELE names "." or ".." |
| Purge.PlanEntriesNeverNameDots | src/main/java/jenkins/plugins/publish_over_ftp/BapFtpClient.java:103-104 | the same for a sequence of entries |
| Purge.PlanEntryNeverNamesDots | src/main/java/jenkins/plugins/publish_over_ftp/BapFtpClient.java:103-104 | the same for one entry |
| Purge.PurgeNeverNamesDots | src/main/java/jenkins/plugins/publish_over_ftp/BapFtpClient.java:103-104 | whatever the server answers, a deletion never enters, removes or deletes "." or ".." |
| Purge.BalancedVisit | src/main/java/jenkins/plugins/publish_over_ftp/BapFtpClient.java:105-112 | CWD into a directory, a balanced deletion inside it, CDUP and RMD together are balanced |
| Purge.PlanIsBalanced | src/main/java/jenkins/plugins/publish_over_ftp/BapFtpClient.java:105-112 | every planned descent is matched by exactly one CDUP: the plan ends where it started and never climbs above it |
| Purge.PlanEntriesAreBalanced | src/main/java/jenkins/plugins/publish_over_ftp/BapFtpClient.java:95-112 | the same for a sequence of entries |
| Purge.PlanEntryIsBalanced | src/main/java/jenkins/plugins/publish_over_ftp/BapFtpClient.java:105-116 | the same for one entry |
| Purge.PurgeStaysBelowStart | src/main/java/jenkins/plugins/publish_over_ftp/BapFtpClient.java:99-117 | whatever the server answers, a deletion never climbs above the directory it started in |
| Purge.ThreeFilesDeleted | src/test/java/jenkins/plugins/publish_over_ftp/BapFtpClientTest.java:379-388 | a listing of three files is deleted with LIST then three DELEs in listing order |
| Purge.DirectoryVisited | src/test/java/jenkins/plugins/publish_over_ftp/BapFtpClientTest.java:403-422 | a directory holding three files is entered, emptied, left and removed, with exactly these calls |
| Purge.DirectoryWithFiles | src/test/java/jenkins/plugins/publish_over_ftp/BapFtpClientTest.java:390-422 | with "." and ".." listed first, they are skipped and only the directory is visited and removed |
| Client.BapFtpClient.constructor | src/main/java/jenkins/plugins/publish_over_ftp/BapFtpClient.java:48-51 | keeps the endpoint and build; nested directories allowed, no remote root yet |
| Client.BapFtpClient.SetDisableMakeNestedDirs | src/main/java/jenkins/plugins/publish_over_ftp/BapFtpClient.java:53-55 | sets the nested-directory flag |
| Client.BapFtpClient.SetAbsoluteRemoteRoot | src/main/java/hudson/plugins/bap_ftp/BapFtpClient.java:35 | sets the absolute remote root |
| Client.BapFtpClient.ChangeDirectory | src/main/java/jenkins/plugins/publish_over_ftp/BapFtpClient.java:69-75 | one CWD; the server's boolean unchanged, or an IOException wrapped naming the directory; the cursor moves only on true |
| Client.BapFtpClient.MakeDirectory | src/main/java/jenkins/plugins/publish_over_ftp/BapFtpClient.java:77-84 | with nested directories disabled and a "/" in the name: false and no call; otherwise one MKD whose boolean is returned unchanged, or an IOException wrapped naming the directory |
| Client.BapFtpClient.DeleteTree | src/main/java/jenkins/plugins/publish_over_ftp/BapFtpClient.java:86-89 | hidden files are listed first, then the trace, outcome and remaining tree are PurgeFolder's; on success the cursor is back where it started |
| Client.BapFtpClient.Delete | src/main/java/jenkins/plugins/publish_over_ftp/BapFtpClient.java:91-97 | a LIST fault or a missing listing engine fails before anything is deleted; otherwise follows PurgeFolder |
| Client.BapFtpClient.DeleteListed | src/main/java/jenkins/plugins/publish_over_ftp/BapFtpClient.java:95-96 | the listed entries in order, stopping at the first failure, as PurgeEntries |
| Client.BapFtpClient.DeleteEntry | src/main/java/jenkins/plugins/publish_over_ftp/BapFtpClient.java:99-117 | one listed entry as PurgeEntry: null fails, "." and ".." are skipped, files deleted, directories visited |
| Client.BapFtpClient.DeleteFile | src/main/java/jenkins/plugins/publish_over_ftp/BapFtpClient.java:113-116 | one DELE; on success the file is gone from the current directory, otherwise the fault or "dele failed" naming it |
| Client.BapFtpClient.DeleteDirectory | src/main/java/jenkins/plugins/publish_over_ftp/BapFtpClient.java:105-112 | CWD in, delete the contents, then leave and remove; on success the directory is gone and the cursor is back |
| Client.BapFtpClient.LeaveDirectory | src/main/java/jenkins/plugins/publish_over_ftp/BapFtpClient.java:109-112 | CDUP then RMD of the emptied directory, as Purge.Leave; on success the cursor is at the parent, which no longer holds it |
| Client.BapFtpClient.BeginTransfers | src/main/java/jenkins/plugins/publish_over_ftp/BapFtpClient.java:119-128 | a transfer without source files fails with no call; otherwise TYPE ASCII exactly in ASCII mode, and a refusal reports the server's reply text |
| Client.BapFtpClient.SetTransferMode | src/main/java/jenkins/plugins/publish_over_ftp/BapFtpClient.java:153-156 | one TYPE call, ASCII exactly in ASCII mode, returning the server's answer |
| Client.BapFtpClient.TransferFile | src/main/java/jenkins/plugins/publish_over_ftp/BapFtpClient.java:130-133 | one STOR under the file's name; a refusal reports the reply text, a fault propagates unwrapped |
| Client.BapFtpClient.Disconnect | src/main/java/jenkins/plugins/publish_over_ftp/BapFtpClient.java:135-143 | nothing without an endpoint, only the connected check when not connected; otherwise a close whose IOException is wrapped with its message; the cursor, data mode, listener and hidden-files setting are unchanged |
| Client.BapFtpClient.DisconnectQuietly | src/main/java/jenkins/plugins/publish_over_ftp/BapFtpClient.java:145-151 | the same calls and connection state as Disconnect; every Exception is swallowed, so the only failure left is a java.lang.Error from closing; the rest of the endpoint is unchanged |
| LegacyClient.BapFtpClient.constructor | src/main/java/hudson/plugins/bap_ftp/BapFtpClient.java:23-26 | keeps the endpoint and build, no remote root yet |
| LegacyClient.BapFtpClient.SetAbsoluteRemoteRoot | src/main/java/hudson/plugins/bap_ftp/BapFtpClient.java:35 | sets the absolute remote root |
| LegacyClient.BapFtpClient.ChangeDirectory | src/main/java/hudson/plugins/bap_ftp/BapFtpClient.java:41-47 | one CWD; the boolean passes through, an IOException is wrapped naming the directory, a RuntimeException propagates |
| LegacyClient.BapFtpClient.ChangeToInitialDirectory | src/main/java/hudson/plugins/bap_ftp/BapFtpClient.java:37-39 | one CWD to exactly the stored root; the server's boolean is returned as it is, an IOException is wrapped naming the root and kept as the cause, a RuntimeException propagates; the cursor moves only on true |
| LegacyClient.BapFtpClient.MakeDirectory | src/main/java/hudson/plugins/bap_ftp/BapFtpClient.java:49-55 | always one MKD, whatever the name; the boolean passes through, an IOException is wrapped |
| LegacyClient.BapFtpClient.BeginTransfers | src/main/java/hudson/plugins/bap_ftp/BapFtpClient.java:57-65 | no source-files check; TYPE ASCII exactly in ASCII mode, a refusal reports the reply text, an IOException is wrapped |
| LegacyClient.BapFtpClient.TransferFile | src/main/java/hudson/plugins/bap_ftp/BapFtpClient.java:67-71 | one STOR under the file's name; a refusal reports the reply text, a fault propagates unwrapped |
| LegacyClient.BapFtpClient.Disconnect | src/main/java/hudson/plugins/bap_ftp/BapFtpClient.java:73-81 | as the current Disconnect, including the unchanged cursor, mode, listener and hidden-files setting |
| LegacyClient.BapFtpClient.DisconnectQuietly | src/main/java/hudson/plugins/bap_ftp/BapFtpClient.java:83-89 | swallows every Throwable, with the same calls and connection state as Disconnect and the rest of the endpoint unchanged |
| FtpHostConfiguration.BapFtpHostConfiguration.constructor | src/main/java/jenkins/plugins/publish_over_ftp/BapFtpHostConfiguration.java:63-72 | keeps the values; the control encoding is normalised by fixEmptyAndTrim |
| FtpHostConfiguration.BapFtpHostConfiguration.SetTimeout | src/main/java/jenkins/plugins/publish_over_ftp/BapFtpHostConfiguration.java:80 | sets the timeout |
| FtpHostConfiguration.BapFtpHostConfiguration.SetUseActiveData | src/main/java/jenkins/plugins/publish_over_ftp/BapFtpHostConfiguration.java:83 | sets the data mode flag |
| FtpHostConfiguration.BapFtpHostConfiguration.Init | src/main/java/jenkins/plugins/publish_over_ftp/BapFtpHostConfiguration.java:109-125 | passes the nested-directory flag to the client, then runs RunSetup with the trimmed host, the encoding and the build's credentials; the root is recorded only on success; the cursor ends as SetupCursor says |
| FtpHostConfiguration.BapFtpHostConfiguration.CreateClient | src/main/java/jenkins/plugins/publish_over_ftp/BapFtpHostConfiguration.java:93-103 | a fresh client exactly when init succeeds; otherwise an IOException is reported with its class name and message and kept as the cause; the endpoint's cursor ends as SetupCursor says |
| FtpHostConfiguration.CreateFailure | src/main/java/jenkins/plugins/publish_over_ftp/BapFtpHostConfiguration.java:98-101 | the catch block: an IOException becomes "failed to create client" with its class name and message, kept as the cause; any other failure passes unchanged |
| FtpHostConfiguration.BapFtpHostConfiguration.LoginCredentials | src/main/java/jenkins/plugins/publish_over_ftp/BapFtpHostConfiguration.java:157-159 | the build's override credentials when present, both user and password; otherwise the configured ones |
| FtpHostConfiguration.OverrideCredentialsLogIn | src/main/java/jenkins/plugins/publish_over_ftp/BapFtpHostConfiguration.java:157-162 | with override credentials both the user and the password sent are the override's, and a refusal names the override user |
| FtpHostConfiguration.EncodingSentIffConfigured | src/main/java/jenkins/plugins/publish_over_ftp/BapFtpHostConfiguration.java:70-130 | the encoding is set exactly when a non-blank one was configured, and then trimmed |
| FtpHostConfiguration.ConnectsToTrimmedHost | src/main/java/jenkins/plugins/publish_over_ftp/BapFtpHostConfiguration.java:169-177 | the connection goes to the trimmed host name and the configured port |
| HostConfiguration.BapHostConfiguration.constructor | src/main/java/jenkins/plugins/publish_over_ftp/BapHostConfiguration.java:53-58 | keeps the values |
| HostConfiguration.BapHostConfiguration.SetTimeout | src/main/java/jenkins/plugins/publish_over_ftp/BapHostConfiguration.java:65 | sets the timeout |
| HostConfiguration.BapHostConfiguration.SetUseActiveData | src/main/java/jenkins/plugins/publish_over_ftp/BapHostConfiguration.java:68 | sets the data mode flag |
| HostConfiguration.BapHostConfiguration.Init | src/main/java/jenkins/plugins/publish_over_ftp/BapHostConfiguration.java:85-100 | runs RunSetup with the host as configured, no encoding and the configured credentials; the root is recorded only on success; the cursor ends as SetupCursor says |
| HostConfiguration.BapHostConfiguration.CreateClient | src/main/java/jenkins/plugins/publish_over_ftp/BapHostConfiguration.java:70-79 | a fresh client exactly when init succeeds; otherwise an IOException is reported with its message only and kept as the cause; the endpoint's cursor ends as SetupCursor says |
| HostConfiguration.CreateFailure | src/main/java/jenkins/plugins/publish_over_ftp/BapHostConfiguration.java:75-77 | the catch block: an IOException becomes "failed to create client" with its message only, kept as the cause; any other failure passes unchanged |
| HostConfiguration.ConfiguredCredentialsLogIn | src/main/java/jenkins/plugins/publish_over_ftp/BapHostConfiguration.java:124-138 | whatever the build carries, the configured user name and password are the ones sent |
| HostConfiguration.NoControlEncoding | src/main/java/jenkins/plugins/publish_over_ftp/BapHostConfiguration.java:102-105 | no control encoding is ever set |
| LegacyHostConfiguration.BapFtpHostConfiguration.constructor | src/main/java/hudson/plugins/bap_ftp/BapFtpHostConfiguration.java:33-38 | keeps the values |
| LegacyHostConfiguration.BapFtpHostConfiguration.SetTimeOut | src/main/java/hudson/plugins/bap_ftp/BapFtpHostConfiguration.java:41 | sets the timeout |
| LegacyHostConfiguration.BapFtpHostConfiguration.SetUseActiveData | src/main/java/hudson/plugins/bap_ftp/BapFtpHostConfiguration.java:44 | sets the data mode flag |
| LegacyHostConfiguration.BapFtpHostConfiguration.Init | src/main/java/hudson/plugins/bap_ftp/BapFtpHostConfiguration.java:61-76 | runs RunSetup with the host as configured, no encoding and the configured credentials; the root is recorded only on success; the cursor ends as SetupCursor says |
| LegacyHostConfiguration.BapFtpHostConfiguration.CreateClient | src/main/java/hudson/plugins/bap_ftp/BapFtpHostConfiguration.java:46-55 | a fresh client exactly when init succeeds; otherwise an IOException is reported with its message and kept as the cause; the endpoint's cursor ends as SetupCursor says |
| LegacyHostConfiguration.CreateFailure | src/main/java/hudson/plugins/bap_ftp/BapFtpHostConfiguration.java:51-53 | the catch block: an IOException becomes "failed to create client" with its message, kept as the cause; any other failure passes unchanged |
| LegacyHostConfiguration.ConfiguredCredentialsLogIn | src/main/java/hudson/plugins/bap_ftp/BapFtpHostConfiguration.java:115-129 | the configured user name and password are the ones sent |
| LegacyHostConfiguration.NoControlEncoding | src/main/java/hudson/plugins/bap_ftp/BapFtpHostConfiguration.java:78-81 | no control encoding is ever set |
| Generations.LegacyOpensLikePlain | src/main/java/hudson/plugins/bap_ftp/BapFtpHostConfiguration.java:61-147 | given the same values, the legacy configuration and the current plain one open the same session for every build and server |
| Generations.CurrentOpensLikePlain | src/main/java/jenkins/plugins/publish_over_ftp/BapFtpHostConfiguration.java:109-185 | without blanks around the host, without encoding and without override credentials, the current configuration opens the same session as the plain one |
| Generations.OnlyCurrentTrimsTheHost | src/main/java/jenkins/plugins/publish_over_ftp/BapFtpHostConfiguration.java:171 | a host written " ftp.example.com" is sent trimmed by the current configuration and as written by the plain one |
| Generations.FailureReports | src/main/java/jenkins/plugins/publish_over_ftp/BapFtpHostConfiguration.java:93-103 | an IOException is reported by all three with its message, the current one putting its class name first, and kept as the cause; anything else escapes unchanged |

## Left out

- The Apache Commons Net `FTPClient` and the server are not part of this
  model. They are represented by `Ftp.FtpServer` over a scripted server and
  a finite tree: sockets, reply parsing, the list-parse engine's paging and
  timeouts are not modelled.
- `FTPReply.isPositiveCompletion` is not part of this model; a 2xx code is
  taken as a positive completion.
- Timeout values are passed through unchanged and never take effect.
- Creating the transport (`createFTPClient`) is replaced by the endpoint
  passed to `CreateClient`, which must not have a listener attached.
- TLS and remote verification are left out, including `setDisableRemoteVerification`.
- Verbose logging is left out: `PrintCommandListener` output, the
  `println` / `printIfVerbose` messages and `LOG.warn`. Only whether the
  listener is attached is kept.
- Jenkins glue is left out: descriptors, plugins, publishers, labels, the
  option classes and the credentials class beyond a user/password pair.
- Value-object boilerplate is left out: getters, `equals`, `hashCode`,
  `toString` and `readResolve`.
- The base classes (`BPHostConfiguration`, `BPDefaultClient`, `BPBuildInfo`)
  are not part of this model. Their members are modelled as follows:
  - `getHostnameTrimmed` as Java's `String.trim`;
  - the current package's `isDirectoryAbsolute` and `changeToRootDirectory`
    as the legacy `isDirAbsolute` and `changeToRootDirectory`;
  - `setAbsoluteRemoteRoot` as the legacy setter;
  - `exception(client, message)` as raising a BapPublisherException with no
    cause. Any other effect it has on the client is not modelled.
- `Util.fixEmptyAndTrim` and `Secret` are not part of this model;
  fixEmptyAndTrim is modelled from its documented behaviour.
- `transferFile`'s content stream and path are left out. Only the stored
  file name and the reply matter, and STOR does not change the modelled
  tree.
- MKD does not change the modelled tree either.
- After a failed deletion, the client states only the trace and the outcome
  about the tree. It does not describe the partly deleted tree left behind.
  On success it describes the full tree.
- CWD to a path that is not a child of the current directory lands on a
  directory the script resolves by path, with no parents recorded. A later
  CDUP from there is refused.
- The deletion works on the listing as one snapshot taken when LIST
  returns. Changes the server makes between entries are not modelled.
- LegacyClient.BapFtpClient.ChangeToInitialDirectory: requires a stored
  root. Calling it before one is set would pass null to CWD, which is not
  modelled.
- The order in which the nested-directory flag is set relative to the
  network calls is not visible in the trace, because it is not a call on
  the FTP client. Init states only the flag's final value.
