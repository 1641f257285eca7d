/** How the user entered a game session (`GameEntryMode`). Its definition
    file is not part of this model; these are the four modes the game roots
    distinguish. */
module GameEntry {
  datatype GameEntryMode = Creator | Host | Participant | Member
}
