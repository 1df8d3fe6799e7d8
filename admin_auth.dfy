/** The admin client's credential state (`adminService.js`): HTTP Basic credentials kept in
    memory, mirrored under the browser-storage key 'adminAuth' after a successful login. */
module AdminAuth {
  import opened Wrappers
  import opened Base64
  import Utf8

  /** The storage key the session is kept under. */
  const StorageKey := "adminAuth"

  /** How the probe request of `login` ends: an ok response, a non-ok response, or a
      thrown error (network failure and the like) with its message. */
  datatype Response = Ok | NotOk | Throws(message: string)

  /** JavaScript truthiness of a string that may be null: present and non-empty. */
  predicate Truthy(s: Option<string>) {
    s.Some? && s.value != ""
  }

  /** The template string `${username}:${password}`. */
  function Credential(username: string, password: string): string {
    username + ":" + password
  }

  /** The index of the first `c` in `s`, or -1. */
  function IndexOf(s: string, c: char): (i: int)
    ensures -1 <= i < |s|
    ensures i >= 0 ==> s[i] == c && c !in s[..i]
    ensures i == -1 <==> c !in s
  {
    if |s| == 0 then -1
    else if s[0] == c then 0
    else
      var j := IndexOf(s[1..], c);
      assert s[1..][..if j < 0 then 0 else j] == s[1..1 + if j < 0 then 0 else j];
      if j < 0 then -1 else j + 1
  }

  /** What the server reads out of the token after "Basic " (section 2 of RFC 7617): decode
      the Base64, read the bytes as UTF-8, as Spring Security's Basic converter does by
      default, and split at the first colon into the user-id and the password; None when
      the token does not decode or has no colon. */
  function UserPass(token: string): Option<(string, string)> {
    match Decode(token)
    case None => None
    case Some(bytes) =>
      if !Bytes(bytes) then None
      else
        var text := Utf8.Decode(bytes);
        var i := IndexOf(text, ':');
        if i < 0 then None else Some((text[..i], text[i + 1..]))
  }

  /** The credentials `setCredentials` stores are the ones the server reads back exactly when
      they are 7-bit and the user name has no colon. With a colon in the user name the
      server takes a shorter user name; a character from U+0080 up is sent as its Latin-1
      byte, which UTF-8 reads as something else. */
  lemma ServerReadsCredentials(username: string, password: string)
    requires Latin1(Credential(username, password))
    ensures Btoa(Credential(username, password)).Success?
    ensures UserPass(Btoa(Credential(username, password)).value).Some?
    ensures UserPass(Btoa(Credential(username, password)).value) == Some((username, password))
        <==> ':' !in username && Utf8.Ascii(Credential(username, password))
  {
    var text := Credential(username, password);
    var bytes := Latin1Bytes(text);
    assert text[|username|] == ':';
    Utf8.AsciiByteKept(bytes, |username|);
    ServerReadsText(text);
    SplitAtFirstColon(Utf8.Decode(bytes), username, password);
  }

  /** Splitting a text at its first colon gives the user name and the password exactly
      when the text is their credential and the user name has no colon. */
  lemma SplitAtFirstColon(read: string, username: string, password: string)
    requires ':' in read
    ensures var i := IndexOf(read, ':');
      (read[..i], read[i + 1..]) == (username, password)
      <==> read == Credential(username, password) && ':' !in username
  {
    var text := Credential(username, password);
    var i := IndexOf(read, ':');
    if (read[..i], read[i + 1..]) == (username, password) {
      assert read == read[..i] + [':'] + read[i + 1..];
    }
    if read == text && ':' !in username {
      assert text[|username|] == ':';
      assert text[..|username|] == username;
      assert i == |username|;
      assert text[i + 1..] == password;
    }
  }

  /** The token of a Latin-1 text is read as the UTF-8 decoding of the text's bytes, and
      that decoding is the text itself exactly when the text is 7-bit. */
  lemma ServerReadsText(text: string)
    requires Latin1(text)
    ensures Btoa(text).Success?
    ensures var read := Utf8.Decode(Latin1Bytes(text));
      var i := IndexOf(read, ':');
      UserPass(Btoa(text).value) == if i < 0 then None else Some((read[..i], read[i + 1..]))
    ensures Utf8.Decode(Latin1Bytes(text)) == text <==> Utf8.Ascii(text)
  {
    var bytes := Latin1Bytes(text);
    Utf8.DecodesAsLatin1IffAscii(bytes);
    Latin1RoundTrip(text);
  }

  /** "contraseña" is not read back: its 'ñ' goes out as one Latin-1 byte. */
  lemma NonAsciiPasswordRejected(username: string)
    requires Latin1(username) && ':' !in username
    ensures UserPass(Btoa(Credential(username, "contraseña")).value) != Some((username, "contraseña"))
  {
    var text := Credential(username, "contraseña");
    assert text[|username| + 1 + 8] == 'ñ';
    ServerReadsCredentials(username, "contraseña");
  }

  class AdminService {
    /** The Base64 credentials in memory, null when logged out. */
    var credentials: Option<string>
    /** The browser storage the session is persisted in. */
    var storage: map<string, string>

    constructor (storage: map<string, string>)
      ensures credentials == None && this.storage == storage
    {
      credentials := None;
      this.storage := storage;
    }

    /** `isAuthenticated`: whether the credentials are truthy. */
    predicate IsAuthenticated()
      reads this
    {
      Truthy(credentials)
    }

    /** `setCredentials`: the credentials become the Base64 of "username:password". A
        character outside Latin-1 makes `btoa` throw and leaves the credentials alone. */
    method SetCredentials(username: string, password: string) returns (thrown: Option<string>)
      modifies this
      ensures Latin1(Credential(username, password)) ==>
        thrown == None && credentials == Some(Encode(Latin1Bytes(Credential(username, password))))
      ensures !Latin1(Credential(username, password)) ==>
        thrown == Some("InvalidCharacterError") && credentials == old(credentials)
      ensures thrown == None ==> IsAuthenticated()
      ensures storage == old(storage)
    {
      var encoded := Btoa(Credential(username, password));
      if encoded.Failure? {
        return Some(encoded.error);
      }
      credentials := Some(encoded.value);
      thrown := None;
    }

    /** `clearCredentials`. */
    method ClearCredentials()
      modifies this
      ensures credentials == None && !IsAuthenticated()
      ensures storage == old(storage)
    {
      credentials := None;
    }

    /** `getAuthHeaders`: throws 'No autenticado' unless the credentials are truthy, and
        otherwise sends them with the Basic scheme as JSON. */
    function AuthHeaders(): (r: Result<map<string, string>, string>)
      reads this
      ensures r.Failure? <==> !IsAuthenticated()
      ensures r.Failure? ==> r.error == "No autenticado"
      ensures r.Success? ==> "Authorization" in r.value && "Content-Type" in r.value
      ensures r.Success? ==> r.value["Authorization"] == "Basic " + credentials.value
      ensures r.Success? ==> r.value["Content-Type"] == "application/json"
    {
      if !Truthy(credentials) then Failure("No autenticado")
      else Success(map["Authorization" := "Basic " + credentials.value,
                       "Content-Type" := "application/json"])
    }

    /** `login`: set the credentials, probe the categories endpoint with them, and on an ok
        response persist them under 'adminAuth'. A non-ok response or a thrown error clears
        the credentials and rethrows without touching storage; a `btoa` failure escapes
        before the probe and changes nothing. */
    method Login(username: string, password: string, response: Response)
      returns (r: Result<bool, string>)
      modifies this
      ensures !Latin1(Credential(username, password)) ==>
        r == Failure("InvalidCharacterError") && credentials == old(credentials) && storage == old(storage)
      ensures Latin1(Credential(username, password)) && response == Ok ==>
        r == Success(true) && IsAuthenticated() &&
        credentials == Some(Btoa(Credential(username, password)).value) &&
        storage == old(storage)[StorageKey := credentials.value]
      ensures Latin1(Credential(username, password)) && response != Ok ==>
        !IsAuthenticated() && credentials == None && storage == old(storage) &&
        r == Failure(if response == NotOk then "Credenciales inválidas" else response.message)
    {
      var thrown := SetCredentials(username, password);
      if thrown.Some? {
        return Failure(thrown.value);
      }
      // The probe's headers: the credentials were just set, so this never throws.
      var headers := AuthHeaders();
      assert headers.Success?;
      match response
      case Ok =>
        storage := storage[StorageKey := credentials.value];
        r := Success(true);
      case NotOk =>
        ClearCredentials();
        // Thrown inside the `try`, so the `catch` clears again and rethrows it.
        ClearCredentials();
        r := Failure("Credenciales inválidas");
      case Throws(message) =>
        ClearCredentials();
        r := Failure(message);
    }

    /** `logout`: forget the credentials in memory and in storage. */
    method Logout()
      modifies this
      ensures credentials == None && !IsAuthenticated()
      ensures StorageKey !in storage && storage == old(storage) - {StorageKey}
    {
      ClearCredentials();
      storage := storage - {StorageKey};
    }

    /** `restoreSession`: a truthy stored value becomes the credentials and the answer is
        true; otherwise nothing changes and the answer is false. */
    method RestoreSession() returns (restored: bool)
      modifies this
      ensures restored <==> StorageKey in storage && storage[StorageKey] != ""
      ensures restored ==> credentials == Some(storage[StorageKey]) && IsAuthenticated()
      ensures !restored ==> credentials == old(credentials)
      ensures storage == old(storage)
    {
      var saved := if StorageKey in storage then Some(storage[StorageKey]) else None;
      if Truthy(saved) {
        credentials := saved;
        return true;
      }
      return false;
    }
  }

  /** A session saved by a successful login is restored by a new service over the same
      storage, with the same credentials. */
  method LoginPersists(username: string, password: string, storage: map<string, string>)
    returns (before: Option<string>, after: Option<string>, restored: bool)
    requires Latin1(Credential(username, password))
    ensures restored && after == before && Truthy(after)
  {
    var service := new AdminService(storage);
    var r := service.Login(username, password, Ok);
    before := service.credentials;
    var reloaded := new AdminService(service.storage);
    restored := reloaded.RestoreSession();
    after := reloaded.credentials;
  }

  /** After `logout`, a new service over the same storage restores nothing. */
  method LogoutForgets(storage: map<string, string>) returns (restored: bool, authenticated: bool)
    ensures !restored && !authenticated
  {
    var service := new AdminService(storage);
    service.Logout();
    var reloaded := new AdminService(service.storage);
    restored := reloaded.RestoreSession();
    authenticated := reloaded.IsAuthenticated();
  }
}
