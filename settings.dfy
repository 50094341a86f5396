/** The configuration constants that game.py and main.py import from the
    `settings` module. Their values are fixed at start-up and are not part of
    this model, so every rule takes them as one record. */
module Settings {

  datatype Config = Config(
    width: int,          // WINDOW_WIDTH, in pixels
    height: int,         // WINDOW_HEIGHT, in pixels
    moveStep: real,      // CHARACTER_MOVE_STEP, the longest step of `forward`
    turnStep: real,      // CHARACTER_TURN_STEP, the default of the turn commands
    ballSpeed: real,     // V_BALL, the distance a ball covers per frame
    shootPeriod: real    // BALL_SHOOT_PERIOD, the firing cooldown in milliseconds
  ) {
    /** The values are assumed positive. */
    predicate Valid() {
      width > 0 && height > 0 && moveStep > 0.0 && turnStep > 0.0 &&
      ballSpeed > 0.0 && shootPeriod > 0.0
    }
  }
}
