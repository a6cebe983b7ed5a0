/**
  The dashboard's upload settings (config.py): the largest archive accepted,
  the one file extension accepted, the upload check built on them, and the
  reading of a yes/no setting from the environment.
*/
module AppConfig {
  import opened Common
  import opened PyText

  /** `MAX_FILE_SIZE`: 200 MiB. */
  const MaxFileSize: nat := 200 * 1024 * 1024

  /** `ALLOWED_EXTENSIONS`. */
  const AllowedExtensions: set<string> := {".zip"}

  // ---------------------------------------------------------------------
  // validate_file_upload
  // ---------------------------------------------------------------------

  /** The message for a file over the limit, naming the limit in whole MiB. */
  function SizeMessage(): string
  {
    "ファイルサイズが大きすぎます（最大" + NatText(MaxFileSize / (1024 * 1024)) + "MB）"
  }

  /** The message for a file of another type, naming the one accepted type. */
  const ExtensionMessage: string := "対応していないファイル形式です（対応形式: .zip）"

  const AcceptedMessage: string := "ファイルは正常です"

  /** The lower-cased `pathlib` suffix of the file name. */
  function Extension(filename: string): string
  {
    Lower(Suffix(filename))
  }

  /**
    `validate_file_upload`: a file over the size limit is refused with the
    size message whatever its name; otherwise a file whose lower-cased
    suffix is not an accepted one is refused with the type message; any
    other file is accepted.
  */
  function ValidateFileUpload(filename: string, fileSize: int): (r: (bool, string))
    ensures r.0 <==> fileSize <= MaxFileSize && Extension(filename) in AllowedExtensions
    ensures fileSize > MaxFileSize ==> r.1 == SizeMessage()
    ensures fileSize <= MaxFileSize && Extension(filename) !in AllowedExtensions ==> r.1 == ExtensionMessage
    ensures r.0 ==> r.1 == AcceptedMessage
  {
    if fileSize > MaxFileSize then (false, SizeMessage())
    else if Extension(filename) !in AllowedExtensions then (false, ExtensionMessage)
    else (true, AcceptedMessage)
  }

  /** The size message names 200 MB. */
  lemma SizeMessageText()
    ensures SizeMessage() == "ファイルサイズが大きすぎます（最大200MB）"
  {
    assert MaxFileSize / (1024 * 1024) == 200;
    assert NatText(200) == NatText(20) + ['0'];
    assert NatText(20) == NatText(2) + ['0'];
  }

  /** A name ending in `.zip` is accepted in any letter case, and the limit itself is still accepted. */
  lemma ZipAcceptedAtLimit(stem: string, ext: string)
    requires |stem| >= 1 && '/' !in stem && '.' !in stem
    requires ext in {"zip", "ZIP", "Zip"}
    ensures ValidateFileUpload(stem + "." + ext, MaxFileSize) == (true, AcceptedMessage)
  {
    SuffixOfStem(stem, ext);
    assert Extension(stem + "." + ext) == ".zip" by {
      assert Lower(".ZIP") == ".zip";
      assert Lower(".Zip") == ".zip";
      assert Lower(".zip") == ".zip";
    }
  }

  /** One byte over the limit is refused for its size, before its name is looked at. */
  lemma OverLimitRefusedFirst(filename: string)
    ensures ValidateFileUpload(filename, MaxFileSize + 1) == (false, SizeMessage())
  {
  }

  /** A name whose only dot starts it, such as `.zip`, has no suffix and is refused. */
  lemma DotNameRefused()
    ensures ValidateFileUpload(".zip", 0) == (false, ExtensionMessage)
  {
    assert BaseName(".zip") == AfterLast(".zip", '/');
    AfterLastPlain(".zip", '/');
    AfterLastAfter("", "zip", '.');
    assert "" + ['.'] + "zip" == ".zip";
  }

  /** A name `stem.ext` with a plain stem and extension has the suffix `.ext`. */
  lemma SuffixOfStem(stem: string, ext: string)
    requires |stem| >= 1 && |ext| >= 1
    requires '/' !in stem && '.' !in stem && '/' !in ext && '.' !in ext
    ensures Suffix(stem + "." + ext) == "." + ext
  {
    var name := stem + "." + ext;
    assert '/' !in name;
    AfterLastPlain(name, '/');
    AfterLastAfter(stem, ext, '.');
  }

  // ---------------------------------------------------------------------
  // _get_bool
  // ---------------------------------------------------------------------

  /** The settings read as yes and as no, once lower-cased. */
  const TrueWords: set<string> := {"true", "1", "yes", "on"}
  const FalseWords: set<string> := {"false", "0", "no", "off"}

  /** `os.getenv(key, '').lower()`. */
  function EnvText(env: map<string, string>, key: string): string
  {
    Lower(if key in env then env[key] else "")
  }

  /**
    `_get_bool`: a yes word gives true, a no word gives false, in any letter
    case; anything else, an unset variable included, gives the default.
  */
  function GetBool(env: map<string, string>, key: string, default: bool): (r: bool)
    ensures EnvText(env, key) in TrueWords ==> r
    ensures EnvText(env, key) in FalseWords ==> !r
    ensures EnvText(env, key) !in TrueWords && EnvText(env, key) !in FalseWords ==> r == default
  {
    var value := EnvText(env, key);
    if value in TrueWords then true
    else if value in FalseWords then false
    else default
  }

  /** An unset variable, and one set to text that is neither a yes nor a no word, give the default. */
  lemma GetBoolDefault(env: map<string, string>, key: string, default: bool)
    requires key !in env || Lower(env[key]) !in TrueWords + FalseWords
    ensures GetBool(env, key, default) == default
  {
    assert "" !in TrueWords + FalseWords;
  }

  /** Letter case does not matter: `TRUE`, `Yes` and `ON` read as yes, `FALSE` and `Off` as no. */
  lemma GetBoolIgnoresCase(key: string, default: bool)
    ensures GetBool(map[key := "TRUE"], key, default)
    ensures GetBool(map[key := "Yes"], key, default)
    ensures GetBool(map[key := "ON"], key, default)
    ensures !GetBool(map[key := "FALSE"], key, default)
    ensures !GetBool(map[key := "Off"], key, default)
  {
    assert Lower("TRUE") == "true";
    assert Lower("Yes") == "yes";
    assert Lower("ON") == "on";
    assert Lower("FALSE") == "false";
    assert Lower("Off") == "off";
  }
}
