/** The command-line entry point `main`: build a client from the parsed
    arguments and the environment, run it, and turn the outcome into the
    process exit status. */
module Cli {
  import opened Wrappers
  import opened TunetClient

  /** The parsed command line: `-u`, `-p`, `--no-headless`, `--timeout`.
      `-v` only raises the log level, which is not modelled. */
  datatype Arguments = Arguments(
    username: Option<string>,
    password: Option<string>,
    noHeadless: bool,
    timeout: int)

  /** The headless setting handed to the client: on unless `--no-headless`. */
  function HeadlessSetting(args: Arguments): bool
  {
    !args.noHeadless
  }

  /** The browser is launched with `--headless` by default and without it
      under `--no-headless`. */
  lemma HeadlessFlagFollowsCommandLine(args: Arguments)
    ensures HeadlessFlag in ChromeOptions(HeadlessSetting(args)) <==> !args.noHeadless
    ensures !args.noHeadless ==> ChromeOptions(HeadlessSetting(args))[0] == HeadlessFlag
  {
  }

  /** How `main` ended: the run finished with a result, the credentials were
      missing (`ValueError`), or the user interrupted it. */
  datatype MainOutcome = Finished(result: Option<bool>) | ConfigurationError | Interrupted

  /** `sys.exit(0 if success else 1)` and the two error exits: the status is 0
      exactly for a run that returned true, and 1 otherwise. */
  function ExitCode(outcome: MainOutcome): (code: int)
    ensures code == 0 || code == 1
    ensures code == 0 <==> outcome == Finished(Some(true))
  {
    match outcome
    case Finished(result) => if result == Some(true) then 0 else 1
    case ConfigurationError => 1
    case Interrupted => 1
  }

  /** `main` after argument parsing. `interrupted` says whether the user
      interrupted the run; the browser's behaviour is given by `launch`,
      `load` and `form`. */
  method RunMain(args: Arguments, env: Environment, interrupted: bool,
                 launch: Launch, load: PageLoad, form: FormResult)
    returns (code: int)
    ensures code == 0 || code == 1
    ensures code == 0 <==>
      && ResolveCredentials(args.username, args.password, env).Success?
      && !interrupted
      && launch == Launched
      && LoginOutcome(LoginUrl, load, form) == Some(true)
  {
    var created := TunetAutoLogin.Create(args.username, args.password, env, HeadlessSetting(args), args.timeout);
    if created.Failure? {
      return ExitCode(ConfigurationError);
    }
    if interrupted {
      return ExitCode(Interrupted);
    }
    var client := created.value;
    var result := client.Run(launch, load, form);
    code := ExitCode(Finished(result));
  }
}
