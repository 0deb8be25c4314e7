/**
 * `AbstractUser`: the credentials and the login flag shared by customers and
 * the manager. The source's subclassing becomes composition: a `Customer` or
 * `Manager` owns one `AbstractUser`.
 */
module Users {

  class AbstractUser {
    /** Only the constructor assigns the credentials. */
    const username: string
    const password: string
    var isLoggedin: bool

    /** A new user starts logged out. */
    constructor (username: string, password: string)
      ensures this.username == username && this.password == password
      ensures !isLoggedin
    {
      this.username := username;
      this.password := password;
      isLoggedin := false;
    }

    /**
     * Logs in when both credentials match; a mismatch leaves the flag as it
     * was, so it does not log out a user who is logged in.
     */
    method Login(enteredUsername: string, enteredPassword: string)
      modifies this
      ensures enteredUsername == username && enteredPassword == password ==> isLoggedin
      ensures !(enteredUsername == username && enteredPassword == password) ==> isLoggedin == old(isLoggedin)
    {
      if enteredUsername == username && enteredPassword == password {
        isLoggedin := true;
      }
    }

    /** Logs out from either state. */
    method Logout()
      modifies this
      ensures !isLoggedin
    {
      isLoggedin := false;
    }

    method IsLoggedIn() returns (r: bool)
      ensures r == isLoggedin
    {
      r := isLoggedin;
    }

    method GetUsername() returns (r: string)
      ensures r == username
    {
      r := username;
    }
  }
}
